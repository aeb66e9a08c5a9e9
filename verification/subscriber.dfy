/**
 * The back end's MQTT subscriber: a message on `<group>/sensores/<device>/<sensor>`
 * is stored as a row and checked against the alert thresholds. The SQLite
 * table is the sequence `rows`; the alerts it prints are the sequence
 * `shown`.
 */
module Subscriber {
  import opened Wrappers
  import opened Text
  import opened Js
  import opened PyValues

  /** Group, device and sensor of a topic. */
  datatype TopicInfo = TopicInfo(group: string, device: string, sensor: string)

  /** The topic split at '/': processed only with at least four segments,
      taking segments 0, 2 and 3. */
  function ParseTopic(topic: string): (r: Option<TopicInfo>)
    ensures r.Some? <==> |Split(topic, '/')| >= 4
    ensures r.Some? ==> var parts := Split(topic, '/');
      r.value == TopicInfo(parts[0], parts[2], parts[3])
  {
    var parts := Split(topic, '/');
    if |parts| >= 4 then Some(TopicInfo(parts[0], parts[2], parts[3])) else None
  }

  /** A topic built from four separator-free pieces parses to them. */
  lemma ParseFourPieces(group: string, kind: string, device: string, sensor: string)
    requires '/' !in group && '/' !in kind && '/' !in device && '/' !in sensor
    ensures ParseTopic(group + "/" + kind + "/" + device + "/" + sensor) == Some(TopicInfo(group, device, sensor))
  {
    var t := group + "/" + kind + "/" + device + "/" + sensor;
    assert t == group + ['/'] + (kind + ['/'] + (device + ['/'] + sensor));
    SplitAppend(group, kind + ['/'] + (device + ['/'] + sensor), '/');
    SplitAppend(kind, device + ['/'] + sensor, '/');
    SplitAppend(device, sensor, '/');
    SplitNone(group, '/');
    SplitNone(kind, '/');
    SplitNone(device, '/');
    SplitNone(sensor, '/');
  }

  /** A topic with fewer than three separators is ignored. */
  lemma ShortTopicIgnored(a: string, b: string, c: string)
    requires '/' !in a && '/' !in b && '/' !in c
    ensures ParseTopic(a + "/" + b + "/" + c) == None
  {
    assert a + "/" + b + "/" + c == a + ['/'] + (b + ['/'] + c);
    SplitAppend(a, b + ['/'] + c, '/');
    SplitAppend(b, c, '/');
    SplitNone(a, '/');
    SplitNone(b, '/');
    SplitNone(c, '/');
  }

  /** What `procesar_alertas` reports, by kind and device. */
  datatype Alert =
    | HighTemperature(device: string)
    | LowTemperature(device: string)
    | HighHumidity(device: string)
    | LowHumidity(device: string)
    | Motion(device: string)

  /** A value that Python can compare with a number: numbers, and booleans
      as 1 and 0. Comparing anything else with a number raises `TypeError`,
      which the handler catches (`None`). */
  function Comparable(v: Json): (r: Option<real>)
    ensures r.Some? <==> v.JNum? || v.JBool?
  {
    match v
    case JNum(n) => Some(n)
    case JBool(b) => Some(if b then 1.0 else 0.0)
    case _ => None
  }

  /** The alerts `procesar_alertas` appends for one reading: a temperature
      above 30 or below 10, a humidity above 80 or below 20, or a truthy
      motion value. A value that does not compare with a number raises
      `TypeError`, which the handler catches, so it gives none. */
  function ThresholdAlerts(device: string, sensor: string, value: Json): (alerts: seq<Alert>)
    ensures |alerts| <= 1
    ensures forall a :: a in alerts ==> a.device == device
    ensures sensor !in {"temperatura", "humedad", "movimiento"} ==> alerts == []
    ensures sensor == "temperatura" ==>
      (HighTemperature(device) in alerts <==> Comparable(value).Some? && Comparable(value).value > 30.0)
      && (LowTemperature(device) in alerts <==> Comparable(value).Some? && Comparable(value).value < 10.0)
      && (forall a :: a in alerts ==> a.HighTemperature? || a.LowTemperature?)
    ensures sensor == "humedad" ==>
      (HighHumidity(device) in alerts <==> Comparable(value).Some? && Comparable(value).value > 80.0)
      && (LowHumidity(device) in alerts <==> Comparable(value).Some? && Comparable(value).value < 20.0)
      && (forall a :: a in alerts ==> a.HighHumidity? || a.LowHumidity?)
    ensures sensor == "movimiento" ==> (alerts == [Motion(device)] <==> PyTruthy(value)) && (alerts == [] <==> !PyTruthy(value))
  {
    var n := Comparable(value);
    if sensor == "temperatura" then
      if n.None? then []
      else if n.value > 30.0 then [HighTemperature(device)]
      else if n.value < 10.0 then [LowTemperature(device)]
      else []
    else if sensor == "humedad" then
      if n.None? then []
      else if n.value > 80.0 then [HighHumidity(device)]
      else if n.value < 20.0 then [LowHumidity(device)]
      else []
    else if sensor == "movimiento" && PyTruthy(value) then [Motion(device)]
    else []
  }

  /** `procesar_alertas`: the list of alerts built check by check. */
  method ProcessAlerts(device: string, sensor: string, value: Json) returns (alerts: seq<Alert>)
    ensures alerts == ThresholdAlerts(device, sensor, value)
  {
    alerts := [];
    var n := Comparable(value);
    if sensor == "temperatura" {
      if n.None? {
        return;
      }
      if n.value > 30.0 {
        alerts := alerts + [HighTemperature(device)];
      } else if n.value < 10.0 {
        alerts := alerts + [LowTemperature(device)];
      }
    } else if sensor == "humedad" {
      if n.None? {
        return;
      }
      if n.value > 80.0 {
        alerts := alerts + [HighHumidity(device)];
      } else if n.value < 20.0 {
        alerts := alerts + [LowHumidity(device)];
      }
    } else if sensor == "movimiento" && PyTruthy(value) {
      alerts := alerts + [Motion(device)];
    }
  }

  /** A value the `sqlite3` module binds: `None`, a boolean, a number or
      text; a dict or a list raises. */
  predicate Bindable(v: Json) {
    !v.JObj? && !v.JArr?
  }

  /** `guardar_lectura`'s insert goes through: every value binds, and the
      `NOT NULL` columns `timestamp` and `valor` do not get `None` (the
      `unidad` column may). Otherwise the error is caught and no row is
      written. */
  predicate Insertable(p: map<string, Json>) {
    var ts := Get(p, "timestamp", JStr(""));
    var valor := Get(p, "valor", JNum(0.0));
    && Bindable(ts) && Bindable(valor) && Bindable(Get(p, "unidad", JStr("")))
    && !ts.JNull? && !valor.JNull?
  }

  /** A reading whose `valor` is `null` is neither stored (the column is
      `NOT NULL`) nor alerted on (`None > 30` raises), while a missing
      `valor` is stored as 0 and checked as "N/A", which alerts on nothing
      but motion. */
  lemma NullValor(device: string, sensor: string, p: map<string, Json>)
    ensures "valor" in p && p["valor"] == JNull ==>
      !Insertable(p) && ThresholdAlerts(device, sensor, Get(p, "valor", JStr("N/A"))) == []
    ensures "valor" !in p ==>
      Get(p, "valor", JNum(0.0)) == JNum(0.0)
      && (sensor != "movimiento" ==> ThresholdAlerts(device, sensor, Get(p, "valor", JStr("N/A"))) == [])
  {
  }

  /** A stored row of `lecturas_sensores`. */
  datatype Row = Row(timestamp: Json, group: string, device: string, sensor: string,
                     value: Json, unit: Json, received: string)

  /** The subscriber's table and the alerts it has shown. */
  class MqttSubscriber {
    var rows: seq<Row>
    var shown: seq<Alert>

    constructor ()
      ensures rows == [] && shown == []
    {
      rows := [];
      shown := [];
    }

    /** `on_message`, with the parsed payload and the receive time
        `receivedIso`. A payload that is not an object has no `get`: the
        handler's exception ends it with nothing stored. The row takes
        `valor` with default 0 and is written only when the insert goes
        through; the alert check runs either way and sees `valor` with
        default "N/A". */
    method OnMessage(topic: string, payload: Json, receivedIso: string)
      modifies this
      ensures var info := ParseTopic(topic);
        if info.None? || !payload.JObj? then rows == old(rows) && shown == old(shown)
        else
          var p := payload.fields;
          && rows == old(rows) + (if Insertable(p) then
                                    [Row(Get(p, "timestamp", JStr("")), info.value.group, info.value.device,
                                         info.value.sensor, Get(p, "valor", JNum(0.0)), Get(p, "unidad", JStr("")),
                                         receivedIso)]
                                  else [])
          && shown == old(shown) + ThresholdAlerts(info.value.device, info.value.sensor, Get(p, "valor", JStr("N/A")))
    {
      var info := ParseTopic(topic);
      if info.None? || !payload.JObj? {
        return;
      }
      var p := payload.fields;
      var value := Get(p, "valor", JStr("N/A"));
      if Insertable(p) {
        rows := rows + [Row(Get(p, "timestamp", JStr("")), info.value.group, info.value.device, info.value.sensor,
                            Get(p, "valor", JNum(0.0)), Get(p, "unidad", JStr("")), receivedIso)];
      }
      var alerts := ProcessAlerts(info.value.device, info.value.sensor, value);
      shown := shown + alerts;
    }
  }
}
