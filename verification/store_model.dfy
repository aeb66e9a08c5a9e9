/**
 * The values held by the front end's system store and the pure rules its
 * actions follow: alert bookkeeping and the derived status, the threshold
 * classifier, the time-sorted chart series, the per-sensor history buffers,
 * and the persisted projection.
 */
module StoreModel {
  import opened Wrappers
  import opened Text
  import opened Js
  import opened Sorting

  // ---------------------------------------------------------------------------
  // Alerts and the derived status

  datatype AlertType = Danger | Warning | Info

  /** An alert; `id` and `timestamp` come from the clock and the random source. */
  datatype Alert = Alert(
    id: string,
    kind: AlertType,
    sensor: string,
    message: string,
    value: real,
    threshold: real,
    timestamp: int,
    acknowledged: bool)

  datatype SystemMode = ModeNormal | ModeWarning | ModeDanger

  /** How serious a mode is: normal < warning < danger. */
  function ModeLevel(m: SystemMode): nat {
    match m
    case ModeNormal => 0
    case ModeWarning => 1
    case ModeDanger => 2
  }

  /** The mode an unacknowledged alert of this type calls for. */
  function KindLevel(k: AlertType): nat {
    match k
    case Danger => 2
    case Warning => 1
    case Info => 0
  }

  /** At most this many alerts are kept, newest first. */
  const MaxAlerts := 20

  /** The number of alerts not yet acknowledged (`filter(a => !a.acknowledged).length`). */
  function ActiveCount(alerts: seq<Alert>): (n: nat)
    ensures n <= |alerts|
  {
    if alerts == [] then 0
    else (if alerts[0].acknowledged then 0 else 1) + ActiveCount(alerts[1..])
  }

  /** Some unacknowledged alert has this type. */
  predicate HasActive(alerts: seq<Alert>, kind: AlertType) {
    exists i :: 0 <= i < |alerts| && !alerts[i].acknowledged && alerts[i].kind == kind
  }

  /** The system mode: danger if an unacknowledged danger alert exists, else
      warning if an unacknowledged warning exists, else normal. */
  function ModeOf(alerts: seq<Alert>): SystemMode {
    if HasActive(alerts, Danger) then ModeDanger
    else if HasActive(alerts, Warning) then ModeWarning
    else ModeNormal
  }

  lemma {:induction false} ActiveCountPositive(alerts: seq<Alert>, i: int)
    requires 0 <= i < |alerts| && !alerts[i].acknowledged
    ensures ActiveCount(alerts) >= 1
  {
    if i > 0 {
      ActiveCountPositive(alerts[1..], i - 1);
    }
  }

  /** The mode is above normal only while some alert is still active, and it
      is exactly as serious as the most serious active alert type. */
  lemma ModeNeedsActive(alerts: seq<Alert>)
    ensures ModeOf(alerts) != ModeNormal ==> ActiveCount(alerts) >= 1
    ensures forall i :: 0 <= i < |alerts| && !alerts[i].acknowledged ==>
      KindLevel(alerts[i].kind) <= ModeLevel(ModeOf(alerts))
  {
    if ModeOf(alerts) != ModeNormal {
      var i :| 0 <= i < |alerts| && !alerts[i].acknowledged
        && (alerts[i].kind == Danger || alerts[i].kind == Warning);
      ActiveCountPositive(alerts, i);
    }
  }

  /** `[newAlert, ...alerts].slice(0, 20)`. */
  function PushAlert(alerts: seq<Alert>, a: Alert): (r: seq<Alert>)
    ensures |r| == Min(|alerts| + 1, MaxAlerts)
    ensures r[0] == a && r[1..] == Take(alerts, MaxAlerts - 1)
  {
    Take([a] + alerts, MaxAlerts)
  }

  /** A fresh alert is active and lifts the mode to at least its own level. */
  lemma NewAlertRaisesMode(alerts: seq<Alert>, a: Alert)
    requires !a.acknowledged
    ensures ActiveCount(PushAlert(alerts, a)) >= 1
    ensures ModeLevel(ModeOf(PushAlert(alerts, a))) >= KindLevel(a.kind)
  {
    ModeNeedsActive(PushAlert(alerts, a));
  }

  /** Mark every alert with this id as acknowledged (`map` over the list). */
  function Acknowledge(alerts: seq<Alert>, id: string): (r: seq<Alert>)
    ensures |r| == |alerts|
    ensures forall i :: 0 <= i < |alerts| ==>
      r[i] == if alerts[i].id == id then alerts[i].(acknowledged := true) else alerts[i]
  {
    if alerts == [] then []
    else
      [if alerts[0].id == id then alerts[0].(acknowledged := true) else alerts[0]]
      + Acknowledge(alerts[1..], id)
  }

  /** The number of active alerts carrying this id. */
  function ActiveWithId(alerts: seq<Alert>, id: string): nat {
    if alerts == [] then 0
    else ActiveWithId(alerts[1..], id) + (if !alerts[0].acknowledged && alerts[0].id == id then 1 else 0)
  }

  /** Acknowledging retires exactly the active alerts with that id. */
  lemma {:induction false} AcknowledgeCount(alerts: seq<Alert>, id: string)
    ensures ActiveCount(Acknowledge(alerts, id)) + ActiveWithId(alerts, id) == ActiveCount(alerts)
  {
    if alerts != [] {
      AcknowledgeCount(alerts[1..], id);
      assert Acknowledge(alerts, id)[1..] == Acknowledge(alerts[1..], id);
    }
  }

  /** Acknowledging never makes the mode more serious, and a second
      acknowledgement of the same id changes nothing. */
  lemma AcknowledgeNeverRaisesMode(alerts: seq<Alert>, id: string)
    ensures ModeLevel(ModeOf(Acknowledge(alerts, id))) <= ModeLevel(ModeOf(alerts))
    ensures Acknowledge(Acknowledge(alerts, id), id) == Acknowledge(alerts, id)
  {
    var r := Acknowledge(alerts, id);
    if HasActive(r, Danger) {
      var i :| 0 <= i < |r| && !r[i].acknowledged && r[i].kind == Danger;
      assert !alerts[i].acknowledged && alerts[i].kind == Danger;
    } else if HasActive(r, Warning) {
      var i :| 0 <= i < |r| && !r[i].acknowledged && r[i].kind == Warning;
      assert !alerts[i].acknowledged && alerts[i].kind == Warning;
    }
  }

  /** `alerts.filter(a => !a.acknowledged)`. */
  function Unacknowledged(alerts: seq<Alert>): (r: seq<Alert>)
    ensures |r| <= |alerts|
    ensures forall i :: 0 <= i < |r| ==> !r[i].acknowledged
    ensures forall a :: a in r <==> a in alerts && !a.acknowledged
  {
    if alerts == [] then []
    else if alerts[0].acknowledged then Unacknowledged(alerts[1..])
    else [alerts[0]] + Unacknowledged(alerts[1..])
  }

  /** Every unacknowledged alert is kept as often as it occurs, and every
      acknowledged one is dropped. */
  lemma {:induction false} UnacknowledgedMultiset(alerts: seq<Alert>, a: Alert)
    ensures multiset(Unacknowledged(alerts))[a] == if a.acknowledged then 0 else multiset(alerts)[a]
  {
    if alerts != [] {
      assert alerts == [alerts[0]] + alerts[1..];
      UnacknowledgedMultiset(alerts[1..], a);
    }
  }

  /** The filter keeps the order of the alerts: clearing a concatenation
      clears each part. */
  lemma {:induction false} UnacknowledgedAppend(a: seq<Alert>, b: seq<Alert>)
    ensures Unacknowledged(a + b) == Unacknowledged(a) + Unacknowledged(b)
  {
    if a == [] {
      assert a + b == b;
    } else {
      HeadOfAppend(a, b);
      UnacknowledgedAppend(a[1..], b);
      if !a[0].acknowledged {
        AppendAssoc([a[0]], Unacknowledged(a[1..]), Unacknowledged(b));
      }
    }
  }

  /** Dropping acknowledged alerts changes neither the active count nor the
      mode, which is why clearing them leaves the status as it was. */
  lemma {:induction false} UnacknowledgedKeepsStatus(alerts: seq<Alert>)
    ensures ActiveCount(Unacknowledged(alerts)) == ActiveCount(alerts)
    ensures ModeOf(Unacknowledged(alerts)) == ModeOf(alerts)
  {
    if alerts != [] {
      UnacknowledgedKeepsStatus(alerts[1..]);
    }
    var r := Unacknowledged(alerts);
    forall k | HasActive(alerts, k) ensures HasActive(r, k) {
      var i :| 0 <= i < |alerts| && !alerts[i].acknowledged && alerts[i].kind == k;
      assert alerts[i] in r;
    }
    forall k | HasActive(r, k) ensures HasActive(alerts, k) {
      var i :| 0 <= i < |r| && !r[i].acknowledged && r[i].kind == k;
      assert r[i] in alerts;
    }
  }

  // ---------------------------------------------------------------------------
  // Thresholds and the risk classifier

  /** Optional danger bounds (`min`, `max`) and warning bounds. */
  datatype Threshold = Threshold(
    min: Option<real>,
    max: Option<real>,
    warningMin: Option<real>,
    warningMax: Option<real>)

  function DefaultThresholds(): map<string, Threshold> {
    map[
      "temperature" := Threshold(Some(5.0), Some(40.0), Some(10.0), Some(35.0)),
      "humidity" := Threshold(Some(20.0), Some(80.0), Some(30.0), Some(70.0)),
      "distance" := Threshold(Some(2.0), Some(300.0), Some(5.0), Some(200.0)),
      "air_quality" := Threshold(None, Some(400.0), None, Some(300.0)),
      "light" := Threshold(None, Some(900.0), None, Some(700.0)),
      "pressure" := Threshold(Some(1000.0), Some(1030.0), Some(1005.0), Some(1025.0))
    ]
  }

  predicate Below(bound: Option<real>, v: real) { bound.Some? && v < bound.value }
  predicate Above(bound: Option<real>, v: real) { bound.Some? && v > bound.value }

  /** The alert a value calls for: its type and the bound it crossed. */
  datatype Verdict = Verdict(kind: AlertType, bound: real)

  /** Danger when a danger bound is crossed, otherwise warning when a warning
      bound is crossed; the bound reported is the lower one when the value is
      below it, else the upper one. */
  function Classify(t: Threshold, v: real): (r: Option<Verdict>)
    ensures r.Some? ==> r.value.kind != Info
    ensures (r.Some? && r.value.kind == Danger) <==> Below(t.min, v) || Above(t.max, v)
    ensures (r.Some? && r.value.kind == Warning) <==>
      !(Below(t.min, v) || Above(t.max, v)) && (Below(t.warningMin, v) || Above(t.warningMax, v))
    ensures r.Some? ==> v < r.value.bound || v > r.value.bound
    ensures r.Some? && r.value.kind == Danger ==>
      r.value.bound == (if Below(t.min, v) then t.min.value else t.max.value)
    ensures r.Some? && r.value.kind == Warning ==>
      r.value.bound == (if Below(t.warningMin, v) then t.warningMin.value else t.warningMax.value)
  {
    if Below(t.min, v) || Above(t.max, v) then
      Some(Verdict(Danger, if Below(t.min, v) then t.min.value else t.max.value))
    else if Below(t.warningMin, v) || Above(t.warningMax, v) then
      Some(Verdict(Warning, if Below(t.warningMin, v) then t.warningMin.value else t.warningMax.value))
    else None
  }

  /** With the default temperature bounds: below 5 or above 40 is danger,
      below 10 or above 35 a warning, and 10 to 35 calls for nothing. */
  lemma DefaultTemperatureBands(v: real)
    ensures var r := Classify(DefaultThresholds()["temperature"], v);
      && ((v < 5.0 || v > 40.0) <==> r == Some(Verdict(Danger, if v < 5.0 then 5.0 else 40.0)))
      && ((5.0 <= v < 10.0 || 35.0 < v <= 40.0) <==>
          r == Some(Verdict(Warning, if v < 10.0 then 10.0 else 35.0)))
      && ((10.0 <= v <= 35.0) <==> r == None)
  {
  }

  /** With the default pressure bounds the classifier agrees with the bands:
      danger outside [1000, 1030], warning outside [1005, 1025]. */
  lemma DefaultPressureBands(v: real)
    ensures var r := Classify(DefaultThresholds()["pressure"], v);
      && ((v < 1000.0 || v > 1030.0) <==> r.Some? && r.value.kind == Danger)
      && ((1000.0 <= v < 1005.0 || 1025.0 < v <= 1030.0) <==> r.Some? && r.value.kind == Warning)
      && ((1005.0 <= v <= 1025.0) <==> r == None)
  {
  }

  /** The window, in milliseconds, within which a second alert for the same
      sensor is suppressed. */
  const AlertWindow := 30000

  /** An unacknowledged alert for this sensor was raised less than 30 s ago. */
  predicate RecentlyAlerted(alerts: seq<Alert>, sensor: string, now: int) {
    exists i :: 0 <= i < |alerts| && alerts[i].sensor == sensor
      && !alerts[i].acknowledged && now - alerts[i].timestamp < AlertWindow
  }

  /** What `evaluateRisk` decides: nothing for a sensor without thresholds or
      with a recent active alert, otherwise the classifier's verdict. */
  function RiskVerdict(thresholds: map<string, Threshold>, alerts: seq<Alert>,
                       sensor: string, v: real, now: int): (r: Option<Verdict>)
    ensures sensor !in thresholds ==> r == None
    ensures RecentlyAlerted(alerts, sensor, now) ==> r == None
    ensures sensor in thresholds && !RecentlyAlerted(alerts, sensor, now) ==>
      r == Classify(thresholds[sensor], v)
  {
    if sensor !in thresholds then None
    else if RecentlyAlerted(alerts, sensor, now) then None
    else Classify(thresholds[sensor], v)
  }

  /** The alert list after `evaluateRisk`: one new active alert carrying the
      verdict's type and bound when there is a verdict, else as it was. */
  function AlertsAfterRisk(thresholds: map<string, Threshold>, alerts: seq<Alert>, sensor: string,
                           v: real, now: int, id: string, message: string): (r: seq<Alert>)
    ensures RiskVerdict(thresholds, alerts, sensor, v, now).None? ==> r == alerts
    ensures RiskVerdict(thresholds, alerts, sensor, v, now).Some? ==>
      var verdict := RiskVerdict(thresholds, alerts, sensor, v, now).value;
      && r == PushAlert(alerts, Alert(id, verdict.kind, sensor, message, v, verdict.bound, now, false))
      && ModeLevel(ModeOf(r)) >= KindLevel(verdict.kind) >= 1
  {
    match RiskVerdict(thresholds, alerts, sensor, v, now)
    case None => alerts
    case Some(verdict) =>
      var a := Alert(id, verdict.kind, sensor, message, v, verdict.bound, now, false);
      NewAlertRaisesMode(alerts, a);
      PushAlert(alerts, a)
  }

  /** After an alert for a sensor, a second reading within the window adds
      nothing, whatever its value. */
  lemma RiskSuppressedAfterAlert(thresholds: map<string, Threshold>, alerts: seq<Alert>,
                                 a: Alert, v: real, now: int)
    requires !a.acknowledged && a.timestamp <= now < a.timestamp + AlertWindow
    ensures RiskVerdict(thresholds, PushAlert(alerts, a), a.sensor, v, now) == None
  {
    assert RecentlyAlerted(PushAlert(alerts, a), a.sensor, now) by {
      assert PushAlert(alerts, a)[0] == a;
    }
  }

  /** `getSensorDisplayName`: the Spanish name of a known type, else the type. */
  function DisplayName(sensorType: string): (r: string)
    ensures sensorType !in {"temperature", "humidity", "distance", "light", "air_quality", "pressure"}
      ==> r == sensorType
    ensures sensorType == "pressure" ==> r == "Presión"
  {
    match sensorType
    case "temperature" => "Temperatura"
    case "humidity" => "Humedad"
    case "distance" => "Distancia"
    case "light" => "Luz"
    case "air_quality" => "Calidad del Aire"
    case "pressure" => "Presión"
    case _ => sensorType
  }

  // ---------------------------------------------------------------------------
  // Chart series

  datatype Point = Point(x: int, y: real)

  datatype Series = Series(sensorType: string, data: seq<Point>, unit: string, color: Option<string>)

  /** At most this many points are kept per series. */
  const MaxPoints := 100

  function SensorUnits(): map<string, string> {
    map["temperature" := "°C", "humidity" := "%", "light" := "lux", "co2" := "ppm",
        "air_quality" := "ppm", "pressure" := "hPa", "distance" := "cm"]
  }

  function SensorColors(): map<string, string> {
    map["temperature" := "#6366f1", "humidity" := "#10b981", "light" := "#facc15",
        "co2" := "#ef4444", "air_quality" := "#ef4444", "pressure" := "#3b82f6",
        "distance" := "#8b5cf6"]
  }

  /** `unit || SENSOR_UNITS[sensorType] || ""`. */
  function UnitFor(unit: string, sensorType: string): string {
    if unit != "" then unit
    else if sensorType in SensorUnits() then SensorUnits()[sensorType]
    else ""
  }

  /** The comparator `a.x - b.x`: earlier points first. */
  predicate EarlierX(a: Point, b: Point) { a.x < b.x }

  lemma EarlierXOrder()
    ensures StrictWeakOrder(EarlierX)
  {
  }

  /** A series is well formed: in time order, at most 100 points, keyed by its type. */
  predicate SeriesOk(key: string, s: Series) {
    s.sensorType == key && SortedBy(s.data, EarlierX) && |s.data| <= MaxPoints
  }

  predicate ChartOk(chart: map<string, Series>) {
    forall k :: k in chart ==> SeriesOk(k, chart[k])
  }

  /** Some stored point lies within 2000 ms and 0.1 of the new one. */
  predicate NearDuplicate(data: seq<Point>, p: Point) {
    exists i :: 0 <= i < |data| && -2000 < data[i].x - p.x < 2000
      && -0.1 < data[i].y - p.y < 0.1
  }

  /** The value `addChartData` accepts: present, not `null`, and a number or
      numeric text. */
  function ChartValue(value: Option<Json>): Option<real> {
    if value.None? || value.value.JNull? then None else NumericValue(value.value)
  }

  /** The series a new point goes into: the stored one, or a fresh empty one. */
  function SeriesFor(chart: map<string, Series>, sensorType: string, unit: string): (s: Series)
    ensures sensorType in chart ==> s == chart[sensorType]
    ensures s.sensorType == sensorType || sensorType in chart
  {
    if sensorType in chart then chart[sensorType]
    else Series(sensorType, [], UnitFor(unit, sensorType),
                if sensorType in SensorColors() then Some(SensorColors()[sensorType]) else None)
  }

  /** A series with a new point sorted in by time, keeping the last 100: the
      series grows by one up to the cap, keeps its other fields, and any point
      it drops is no later than the earliest point it keeps. */
  function WithPoint(cur: Series, p: Point): (r: Series)
    ensures r == cur.(data := r.data)
    ensures SortedBy(r.data, EarlierX)
    ensures |r.data| == Min(|cur.data| + 1, MaxPoints)
    ensures multiset(r.data) <= multiset(cur.data) + multiset{p}
  {
    var sorted := SortBy(cur.data + [p], EarlierX);
    var kept := SliceFrom(sorted, -MaxPoints);
    EarlierXOrder();
    SortBySorted(cur.data + [p], EarlierX);
    KeepLast(sorted, MaxPoints);
    assert |sorted| == |cur.data| + 1 by {
      assert |multiset(sorted)| == |multiset(cur.data + [p])|;
    }
    SuffixSorted(sorted, |sorted| - |kept|, EarlierX);
    cur.(data := kept)
  }

  /** `slice(-n)` keeps `min(n, length)` of the elements, and all of them
      when there are no more than `n`. */
  lemma KeepLast<T>(s: seq<T>, n: int)
    requires n >= 1
    ensures |SliceFrom(s, -n)| == Min(n, |s|)
    ensures multiset(SliceFrom(s, -n)) <= multiset(s)
    ensures |s| <= n ==> SliceFrom(s, -n) == s
  {
    var kept := SliceFrom(s, -n);
    assert s == s[..|s| - |kept|] + kept;
  }

  /** Below the cap of 100, `WithPoint` keeps every old point and the new one. */
  lemma WithPointKeepsAll(cur: Series, p: Point)
    requires |cur.data| < MaxPoints
    ensures multiset(WithPoint(cur, p).data) == multiset(cur.data) + multiset{p}
  {
    var sorted := SortBy(cur.data + [p], EarlierX);
    assert |sorted| == |cur.data| + 1 by {
      assert |multiset(sorted)| == |multiset(cur.data + [p])|;
    }
    KeepLast(sorted, MaxPoints);
  }

  /** At the cap `WithPoint` drops only the oldest: any point of the old
      series or the new point that it left out is no later than every point
      it kept. */
  lemma WithPointDropsOldest(cur: Series, p: Point)
    ensures var r := WithPoint(cur, p);
      forall q, k :: 0 <= k < |r.data| && multiset(r.data)[q] < (multiset(cur.data) + multiset{p})[q] ==>
        q.x <= r.data[k].x
  {
    var sorted := SortBy(cur.data + [p], EarlierX);
    var kept := SliceFrom(sorted, -MaxPoints);
    var n := |sorted| - |kept|;
    EarlierXOrder();
    SortBySorted(cur.data + [p], EarlierX);
    DroppedNotLater(sorted, n);
    forall k | 0 <= k < |kept| ensures sorted[n].x <= kept[k].x {
      if k > 0 {
        assert kept[k] == sorted[n + k];
        assert !EarlierX(sorted[n + k], sorted[n]);
      }
    }
  }

  /** Cutting a time-ordered series at `n` removes only points no later than
      the first one kept. */
  lemma DroppedNotLater(s: seq<Point>, n: nat)
    requires SortedBy(s, EarlierX) && n < |s|
    ensures multiset(s[n..]) <= multiset(s)
    ensures forall q :: multiset(s[n..])[q] < multiset(s)[q] ==> q.x <= s[n].x
  {
    assert s == s[..n] + s[n..];
    forall q | multiset(s[n..])[q] < multiset(s)[q] ensures q.x <= s[n].x {
      assert q in s[..n];
      var i :| 0 <= i < n && s[..n][i] == q;
      assert !EarlierX(s[n], s[i]);
    }
  }

  /** `addChartData` on the chart map: an empty type or a missing or
      non-numeric value changes nothing; so does a point near a stored one;
      otherwise the point, rounded to two decimals, is sorted into its
      series by time and only the last 100 points are kept. */
  function ChartAfter(chart: map<string, Series>, sensorType: string, value: Option<Json>,
                      unit: string, timestamp: Option<int>, now: int): (r: map<string, Series>)
    ensures sensorType == "" || ChartValue(value).None? ==> r == chart
    ensures sensorType != "" && ChartValue(value).Some? ==>
      var cur := SeriesFor(chart, sensorType, unit);
      var p := Point(timestamp.GetOr(now), Round2(ChartValue(value).value));
      && (NearDuplicate(cur.data, p) ==> r == chart)
      && (!NearDuplicate(cur.data, p) ==> sensorType in r && r[sensorType] == WithPoint(cur, p))
    ensures forall k :: k != sensorType ==> (k in r <==> k in chart) && (k in r ==> r[k] == chart[k])
    ensures ChartOk(chart) ==> ChartOk(r)
  {
    if sensorType == "" || ChartValue(value).None? then chart
    else
      var cur := SeriesFor(chart, sensorType, unit);
      var p := Point(timestamp.GetOr(now), Round2(ChartValue(value).value));
      if NearDuplicate(cur.data, p) then chart
      else
        assert ChartOk(chart) ==> SeriesOk(sensorType, WithPoint(cur, p));
        ChartOkUpdate(chart, sensorType, WithPoint(cur, p));
        chart[sensorType := WithPoint(cur, p)]
  }

  lemma ChartOkUpdate(chart: map<string, Series>, key: string, s: Series)
    ensures ChartOk(chart) && SeriesOk(key, s) ==> ChartOk(chart[key := s])
  {
  }

  /** When `addChartData` changes the charts, the point was not near a stored
      one and its series grew by one point up to the cap of 100; below the
      cap it holds exactly the old points and the new one, at the cap only
      points no later than every kept one were dropped; the series keeps the
      unit it started with. */
  lemma ChartAfterAdds(chart: map<string, Series>, sensorType: string, value: Option<Json>,
                       unit: string, timestamp: Option<int>, now: int)
    requires ChartAfter(chart, sensorType, value, unit, timestamp, now) != chart
    ensures sensorType != "" && ChartValue(value).Some?
    ensures var r := ChartAfter(chart, sensorType, value, unit, timestamp, now);
      var p := Point(timestamp.GetOr(now), Round2(ChartValue(value).value));
      var prior := SeriesFor(chart, sensorType, unit);
      && sensorType in r
      && !NearDuplicate(prior.data, p)
      && |r[sensorType].data| == Min(|prior.data| + 1, MaxPoints)
      && multiset(r[sensorType].data) <= multiset(prior.data) + multiset{p}
      && (|prior.data| < MaxPoints ==> multiset(r[sensorType].data) == multiset(prior.data) + multiset{p})
      && (forall q, k ::
            0 <= k < |r[sensorType].data| && multiset(r[sensorType].data)[q] < (multiset(prior.data) + multiset{p})[q]
            ==> q.x <= r[sensorType].data[k].x)
      && r[sensorType].unit == prior.unit
  {
    var r := ChartAfter(chart, sensorType, value, unit, timestamp, now);
    assert sensorType != "" && ChartValue(value).Some?;
    var prior := SeriesFor(chart, sensorType, unit);
    var p := Point(timestamp.GetOr(now), Round2(ChartValue(value).value));
    assert !NearDuplicate(prior.data, p);
    assert sensorType in r && r[sensorType] == WithPoint(prior, p);
    if |prior.data| < MaxPoints {
      WithPointKeepsAll(prior, p);
    }
    WithPointDropsOldest(prior, p);
  }

  lemma SuffixSorted<T>(s: seq<T>, k: nat, before: (T, T) -> bool)
    requires k <= |s| && SortedBy(s, before)
    ensures SortedBy(s[k..], before)
  {
    forall i, j | 0 <= i < j < |s| - k ensures !before(s[k..][j], s[k..][i]) {
      assert s[k..][j] == s[k + j] && s[k..][i] == s[k + i];
    }
  }

  /** Sorting a series that is already in order changes nothing. */
  lemma {:induction false} SortBySortedIsIdentity<T(!new)>(s: seq<T>, before: (T, T) -> bool)
    requires SortedBy(s, before)
    ensures SortBy(s, before) == s
  {
    if s != [] {
      var init := s[..|s| - 1];
      assert SortedBy(init, before);
      SortBySortedIsIdentity(init, before);
      if |init| > 0 {
        assert !before(s[|s| - 1], init[|init| - 1]);
      }
      assert init + [s[|s| - 1]] == s;
    }
  }

  /** Because a stored series is always in order, the stable sort places the
      new point right after every point that is not later than it. */
  lemma SortedInsertion(data: seq<Point>, p: Point)
    requires SortedBy(data, EarlierX)
    ensures SortBy(data + [p], EarlierX) == Insert(p, data, EarlierX)
  {
    assert (data + [p])[..|data|] == data;
    SortBySortedIsIdentity(data, EarlierX);
  }

  /** `getChartData`: `data.slice(-maxPoints)` of a stored series, else nothing. */
  function ChartPoints(chart: map<string, Series>, sensorType: string, maxPoints: int): (r: seq<Point>)
    ensures sensorType !in chart ==> r == []
    ensures sensorType in chart && maxPoints >= 1 ==>
      var d := chart[sensorType].data; r == d[|d| - Min(maxPoints, |d|)..]
    ensures sensorType in chart && maxPoints == 0 ==> r == chart[sensorType].data
  {
    if sensorType in chart then SliceFrom(chart[sensorType].data, -maxPoints) else []
  }

  /** `clearChartData(t)`: a non-empty type removes that series only, no type
      (or an empty one) removes them all. */
  function ChartCleared(chart: map<string, Series>, sensorType: Option<string>): (r: map<string, Series>)
    ensures sensorType.Some? && sensorType.value != "" ==>
      r.Keys == chart.Keys - {sensorType.value} && forall k :: k in r ==> r[k] == chart[k]
    ensures sensorType.None? || sensorType.value == "" ==> r == map[]
  {
    if sensorType.Some? && sensorType.value != "" then chart - {sensorType.value} else map[]
  }

  // ---------------------------------------------------------------------------
  // History buffers

  /** One reading kept in a per-sensor history buffer. */
  datatype HistoryPoint = HistoryPoint(timestamp: int, value: real, sensorType: string, unit: string)

  /** At most this many points are kept per sensor, newest first. */
  const MaxHistory := 20

  /** The buffer stored under a key, or the empty one. */
  function BufferOf(history: map<string, seq<HistoryPoint>>, key: string): seq<HistoryPoint> {
    if key in history then history[key] else []
  }

  /** `[point, ...history[key]].slice(0, 20)` stored back under the key. */
  function PushHistory(history: map<string, seq<HistoryPoint>>, key: string, p: HistoryPoint)
    : (r: map<string, seq<HistoryPoint>>)
    ensures r.Keys == history.Keys + {key}
    ensures r[key] == Take([p] + BufferOf(history, key), MaxHistory)
    ensures forall k :: k in history && k != key ==> r[k] == history[k]
  {
    history[key := Take([p] + BufferOf(history, key), MaxHistory)]
  }

  /** The buffers in key order (`Object.values(history).flat()`). */
  function Flatten(order: seq<string>, history: map<string, seq<HistoryPoint>>): seq<HistoryPoint> {
    if order == [] then [] else BufferOf(history, order[0]) + Flatten(order[1..], history)
  }

  /** The comparator `b.timestamp - a.timestamp`: newer points first. */
  predicate Newer(a: HistoryPoint, b: HistoryPoint) { a.timestamp > b.timestamp }

  lemma NewerOrder()
    ensures StrictWeakOrder(Newer)
  {
  }

  /** `getHistoryData`: one sensor's buffer, or with no type every buffer
      merged and sorted newest first. */
  function HistoryData(history: map<string, seq<HistoryPoint>>, order: seq<string>,
                       sensorType: Option<string>): (r: seq<HistoryPoint>)
    ensures sensorType.Some? && sensorType.value != "" ==> r == BufferOf(history, sensorType.value)
    ensures sensorType.None? || sensorType.value == "" ==>
      SortedBy(r, Newer) && multiset(r) == multiset(Flatten(order, history))
  {
    if sensorType.Some? && sensorType.value != "" then BufferOf(history, sensorType.value)
    else
      NewerOrder();
      SortBySorted(Flatten(order, history), Newer);
      SortBy(Flatten(order, history), Newer)
  }

  // ---------------------------------------------------------------------------
  // Readings

  /** A reading as the hooks hand it to the store. `timestamp` is the instant
      its date text denotes; `sensorType` and `evaluationType` are absent
      (`None`) when the hook set none. */
  datatype Reading = Reading(
    topic: string,
    valor: Option<Valor>,
    unidad: string,
    timestamp: int,
    sensorType: Option<Json>,
    completeData: Option<Json>,
    evaluationType: Option<string>,
    evalValue: Option<Valor>)

  /** At most this many readings are kept, newest first. */
  const MaxReadings := 100

  /** `valor === other.valor`, where two absent values are equal. */
  predicate SameValor(a: Option<Valor>, b: Option<Valor>) {
    (a.None? && b.None?) || (a.Some? && b.Some? && StrictEqualsValor(a.value, b.value))
  }

  /** A stored reading has the same topic and value and lies within one second. */
  predicate IsDuplicateReading(readings: seq<Reading>, data: Reading) {
    exists i :: 0 <= i < |readings| && readings[i].topic == data.topic
      && SameValor(readings[i].valor, data.valor)
      && -1000 < readings[i].timestamp - data.timestamp < 1000
  }

  /** `[data, ...readings.slice(0, 99)]`. */
  function PushReading(readings: seq<Reading>, data: Reading): (r: seq<Reading>)
    ensures |r| == Min(|readings| + 1, MaxReadings)
    ensures r[0] == data && r[1..] == Take(readings, MaxReadings - 1)
  {
    [data] + Take(readings, MaxReadings - 1)
  }

  /** The store's name for a hook's `sensor_type` label (`typeMap`); every
      name it gives is one of the store's sensors. */
  function EvalTypeOf(name: string): (t: Option<string>)
    ensures t.Some? ==> t.value in {"temperature", "humidity", "distance", "light", "air_quality", "pressure"}
  {
    match name
    case "Temperatura" => Some("temperature")
    case "Humedad" => Some("humidity")
    case "Distancia" => Some("distance")
    case "Calidad del Aire" => Some("air_quality")
    case "Luz" => Some("light")
    case "Presión" => Some("pressure")
    case "Presión Atmosférica" => Some("pressure")
    case "Sensor de Distancia" => Some("distance")
    case "Nivel de Luz" => Some("light")
    case "CO2/Gases" => Some("air_quality")
    case "temperature" => Some("temperature")
    case "humidity" => Some("humidity")
    case "light" => Some("light")
    case "air_quality" => Some("air_quality")
    case "pressure" => Some("pressure")
    case "distance" => Some("distance")
    case _ => None
  }

  /** Every label the type map knows names a sensor with default thresholds,
      so each such reading is checked against them. */
  lemma EvalTypesHaveThresholds(name: string)
    ensures EvalTypeOf(name).Some? ==> EvalTypeOf(name).value in DefaultThresholds()
  {
  }

  /** The sensor a reading is measured as and its numeric value: the hook's
      `evaluationType` with `evalValue` when both are set (a non-numeric
      value then measures nothing), otherwise the type mapped from a truthy
      `sensor_type` with `valor`. */
  function Measurement(data: Reading): (r: Option<(string, real)>)
    ensures r.Some? ==> r.value.0 != ""
  {
    if data.evaluationType.Some? && data.evaluationType.value != "" && data.evalValue.Some? then
      match NumericValor(data.evalValue.value)
      case Some(v) => Some((data.evaluationType.value, v))
      case None => None
    else if TruthyOpt(data.sensorType) && data.valor.Some? then
      if data.sensorType.value.JStr? && EvalTypeOf(data.sensorType.value.s).Some? then
        match NumericValor(data.valor.value)
        case Some(v) => Some((EvalTypeOf(data.sensorType.value.s).value, v))
        case None => None
      else None
    else None
  }

  /** `data.complete_data?.type === "historical_data"`. */
  predicate IsHistorical(data: Reading) {
    data.completeData.Some? && data.completeData.value.JObj?
    && "type" in data.completeData.value.fields
    && data.completeData.value.fields["type"] == JStr("historical_data")
  }

  /** `complete_data.data || []`; `None` when it is truthy but not an array
      (`forEach` then throws). */
  function HistoricalItems(completeData: Json): Option<seq<Json>>
    requires completeData.JObj?
  {
    var d := Member(completeData, "data");
    if !TruthyOpt(d) then Some([])
    else if d.value.JArr? then Some(d.value.items)
    else None
  }

  /** What one historical point leads to. */
  datatype PointStep = Throws | Skip | Chart(sensorType: string, value: real, unit: string, x: int)

  /** The time of a historical point: falsy means now, a number is seconds
      below 10^12 and milliseconds above. */
  function StampOf(ts: Option<Json>, now: int): int {
    if TruthyOpt(ts) && ts.value.JNum? then SecondsOrMillis(ts.value.n) else now
  }

  /** A historical point is charted when it has a truthy `sensor_type` not
      starting with `_`, a present value that reads as a number; `null`
      points and non-text types of a valued point throw. */
  function StepOf(item: Json, now: int): (r: PointStep)
    ensures r.Chart? ==> r.sensorType != "" && r.sensorType[0] != '_'
    ensures item.JNull? ==> r == Throws
  {
    if item.JNull? then Throws
    else
      var st := Member(item, "sensor_type");
      var value := Member(item, "value");
      if !TruthyOpt(st) || value.None? then Skip
      else if !st.value.JStr? then Throws
      else if StartsWith(st.value.s, "_") then Skip
      else match NumericValue(value.value)
        case None => Skip
        case Some(v) =>
          var unit := Member(item, "unit");
          var u := if unit.Some? && unit.value.JStr? then unit.value.s else "";
          Chart(st.value.s, v, UnitFor(u, st.value.s), StampOf(Member(item, "timestamp"), now))
  }

  /** The number of points handled before the first one that throws. */
  function HandledPrefix(items: seq<Json>, now: int): (n: nat)
    ensures n <= |items|
    ensures forall i :: 0 <= i < n ==> StepOf(items[i], now) != Throws
    ensures n < |items| ==> StepOf(items[n], now) == Throws
  {
    if items == [] || StepOf(items[0], now) == Throws then 0
    else 1 + HandledPrefix(items[1..], now)
  }

  /** The first point that throws, or the end, is where the batch stops. */
  lemma FirstThrow(items: seq<Json>, now: int, k: nat)
    requires k <= |items|
    requires forall i :: 0 <= i < k ==> StepOf(items[i], now) != Throws
    requires k == |items| || StepOf(items[k], now) == Throws
    ensures k == HandledPrefix(items, now)
  {
  }

  /** The charts after the deferred `addChartData` calls of a batch of points. */
  function ChartAfterPoints(chart: map<string, Series>, items: seq<Json>, now: int): (r: map<string, Series>)
    ensures ChartOk(chart) ==> ChartOk(r)
  {
    if items == [] then chart
    else
      var before := ChartAfterPoints(chart, items[..|items| - 1], now);
      match StepOf(items[|items| - 1], now)
      case Chart(t, v, u, x) => ChartAfter(before, t, Some(JNum(v)), u, Some(x), now)
      case _ => before
  }

  /** One more point of a batch: its chart call, if it has one, applied to
      the charts after the points before it. */
  lemma ChartAfterPointsStep(chart: map<string, Series>, items: seq<Json>, j: nat, now: int)
    requires j < |items|
    ensures var step := StepOf(items[j], now);
      step.Chart? ==>
        ChartAfterPoints(chart, items[..j + 1], now)
        == ChartAfter(ChartAfterPoints(chart, items[..j], now), step.sensorType, Some(JNum(step.value)), step.unit, Some(step.x), now)
    ensures !StepOf(items[j], now).Chart? ==>
      ChartAfterPoints(chart, items[..j + 1], now) == ChartAfterPoints(chart, items[..j], now)
  {
    var prefix := items[..j + 1];
    assert prefix != [] && prefix[..|prefix| - 1] == items[..j] && prefix[|prefix| - 1] == items[j];
    var before := ChartAfterPoints(chart, items[..j], now);
    assert ChartAfterPoints(chart, prefix, now) ==
      match StepOf(items[j], now)
      case Chart(t, v, u, x) => ChartAfter(before, t, Some(JNum(v)), u, Some(x), now)
      case _ => before;
  }

  // ---------------------------------------------------------------------------
  // Status and persistence

  datatype Status = Status(
    isConnected: bool,
    isSyncing: bool,
    lastSync: Option<int>,
    lastDataReceived: Option<int>,
    mqttStatus: string,
    activeAlerts: nat,
    systemMode: SystemMode,
    isSystemActive: bool)

  function InitialStatus(): Status {
    Status(false, false, None, None, "Desconectado", 0, ModeNormal, false)
  }

  /** The status after a reading is accepted: syncing, just synced, just
      received, active. */
  function Received(s: Status, now: int): (r: Status)
    ensures r.isSyncing && r.isSystemActive && r.lastDataReceived == Some(now)
    ensures r.(isSyncing := s.isSyncing, lastSync := s.lastSync,
               lastDataReceived := s.lastDataReceived, isSystemActive := s.isSystemActive) == s
  {
    s.(isSyncing := true, lastSync := Some(now), lastDataReceived := Some(now), isSystemActive := true)
  }

  /** The heartbeat window in milliseconds. */
  const ActivityWindow := 30000

  /** `checkSystemActivity`: data arrived less than 30 s ago. */
  predicate IsActive(lastDataReceived: Option<int>, now: int) {
    lastDataReceived.Some? && now - lastDataReceived.value < ActivityWindow
  }

  /** A reading just received keeps the system active for the whole window. */
  lemma ActiveAfterReading(received: int, now: int)
    requires received <= now < received + ActivityWindow
    ensures IsActive(Some(received), now)
    ensures !IsActive(Some(received), received + ActivityWindow)
  {
  }

  /** What is written to storage: the thresholds, the unacknowledged alerts
      and the last 20 points of each series. */
  datatype Persisted = Persisted(
    thresholds: map<string, Threshold>,
    alerts: seq<Alert>,
    chart: map<string, Series>)

  const PersistedPoints := 20

  function Partialize(thresholds: map<string, Threshold>, alerts: seq<Alert>,
                      chart: map<string, Series>): (p: Persisted)
    ensures p.thresholds == thresholds
    ensures p.alerts == Unacknowledged(alerts)
    ensures forall i :: 0 <= i < |p.alerts| ==> !p.alerts[i].acknowledged
    ensures ActiveCount(p.alerts) == ActiveCount(alerts) && ModeOf(p.alerts) == ModeOf(alerts)
    ensures p.chart.Keys == chart.Keys
    ensures forall k :: k in chart ==>
      var d := chart[k].data;
      p.chart[k] == chart[k].(data := d[|d| - Min(PersistedPoints, |d|)..])
  {
    UnacknowledgedKeepsStatus(alerts);
    var kept := map k | k in chart :: RecentPoints(chart[k]);
    assert kept.Keys == chart.Keys;
    Persisted(thresholds, Unacknowledged(alerts), kept)
  }

  /** A series with only its last points, `data.slice(-20)`. */
  function RecentPoints(s: Series): (r: Series)
    ensures r == s.(data := s.data[|s.data| - Min(PersistedPoints, |s.data|)..])
  {
    SliceFromNegative(s.data, PersistedPoints);
    s.(data := SliceFrom(s.data, -PersistedPoints))
  }
}
