/**
 * The sensor page's MQTT hook: how a received message is normalised into a
 * reading (units, labels, the evaluation type and value), the hook's own
 * capped list of readings, and the guards around publishing. Parsing the
 * message text is outside the model: a handler receives the value
 * `JSON.parse` produced, or the raw text as a string when parsing failed.
 */
module MqttHook {
  import opened Wrappers
  import opened Text
  import opened Js
  import opened StoreModel
  import opened SystemStore

  /** The topic on which the controller sends its complete system snapshot. */
  const CompleteTopic := "GRUPO2/sensores/rasp01"
  const StatusPrefix := "GRUPO2/status/rasp01/sensors/"
  const HistoryTopic := "GRUPO2/commands/rasp01/history"

  /** At most this many readings are kept by the hook, newest first. */
  const MaxLocal := 50

  /** The unit, the display label and the evaluation type of a topic. */
  datatype Kind = Kind(unidad: string, sensorType: Json, evaluationType: Option<string>)

  /** `String(n)` for a number; only whole numbers are rendered (a fraction is
      cut off). */
  function IntText(n: int): string {
    if n < 0 then "-" + NatText(-n) else NatText(n)
  }

  /** `String(value)` for the payloads a fan topic carries. Arrays are not
      rendered. */
  function DisplayText(v: Json): string {
    match v
    case JNull => "null"
    case JBool(b) => if b then "true" else "false"
    case JNum(n) => IntText(Trunc(n))
    case JStr(s) => s
    case JArr(_) => ""
    case JObj(_) => "[object Object]"
  }

  /** `getUnitsAndSensorType`. An object payload that names its own
      `sensor_type` keeps it, with its `unidad` and the raw last topic
      segment as evaluation type; otherwise the last segment, in English or
      Spanish, decides. `None` when the payload is `null` (reading a
      property of it throws). */
  function KindOf(topic: string, value: Json): (r: Option<Kind>)
    ensures r.None? <==> value.JNull?
    ensures r.Some? && value.JObj? && TruthyOpt(Member(value, "sensor_type")) ==>
      r.value.sensorType == Member(value, "sensor_type").value
      && r.value.evaluationType == Some(LastSegment(topic, '/'))
  {
    if value.JNull? then None
    else
      var segment := LastSegment(topic, '/');
      var st := Member(value, "sensor_type");
      if IsObjectType(value) && TruthyOpt(st) then
        var u := Member(value, "unidad");
        Some(Kind(if TruthyOpt(u) && u.value.JStr? then u.value.s else "", st.value, Some(segment)))
      else Some(SegmentKind(segment, value))
  }

  /** The fallback table on the last topic segment. */
  function SegmentKind(segment: string, value: Json): Kind {
    match segment
    case "temperature" => Kind("°C", JStr("Temperatura"), Some("temperature"))
    case "humidity" => Kind("%", JStr("Humedad"), Some("humidity"))
    case "distance" => Kind("cm", JStr("Distancia"), Some("distance"))
    case "light" => Kind(if Truthy(value) then "Detectada" else "No detectada", JStr("Luz"), Some("light"))
    case "air_quality" => Kind(if Truthy(value) then "Malo" else "Bueno", JStr("Calidad del Aire"), Some("air_quality"))
    case "buzzer" => Kind(if Truthy(value) then "Activado" else "Desactivado", JStr("Buzzer"), None)
    case "status" => Kind("Estado", JStr("Estado del Sistema"), None)
    case "fan" => Kind(FanUnit(value), JStr("Ventilador"), Some("fan"))
    case "motor" => Kind(FanUnit(value), JStr("Ventilador"), Some("fan"))
    case "temperatura" => Kind("°C", JStr("Temperatura"), Some("temperature"))
    case "humedad" => Kind("%", JStr("Humedad"), Some("humidity"))
    case "distancia" => Kind("cm", JStr("Distancia"), Some("distance"))
    case "luz" => Kind(if value.JNum? then "lux" else "Estado", JStr("Luz"), Some("light"))
    case "gas" => Kind(if value.JNum? then "ppm" else "Estado", JStr("Calidad del Aire"), Some("air_quality"))
    case "presion" => Kind("hPa", JStr("Presión"), Some("pressure"))
    case "leds" => Kind("Estado", JStr("LEDs"), Some("leds"))
    case _ => Kind("", JStr("Sensor"), None)
  }

  function FanUnit(value: Json): string {
    if value == JStr("ON") || value == JStr("on") || value == JBool(true) then "Encendido"
    else if value == JStr("OFF") || value == JStr("off") || value == JBool(false) then "Apagado"
    else DisplayText(value)
  }

  /** English and Spanish topic names agree, and only measured sensors have
      an evaluation type. */
  lemma AliasesAgree(value: Json)
    requires !IsObjectType(value)
    ensures SegmentKind("temperature", value) == SegmentKind("temperatura", value)
    ensures SegmentKind("humidity", value) == SegmentKind("humedad", value)
    ensures SegmentKind("distance", value) == SegmentKind("distancia", value)
    ensures SegmentKind("fan", value) == SegmentKind("motor", value)
    ensures SegmentKind("light", value).evaluationType == SegmentKind("luz", value).evaluationType == Some("light")
    ensures SegmentKind("air_quality", value).evaluationType == SegmentKind("gas", value).evaluationType == Some("air_quality")
    ensures SegmentKind("presion", value).evaluationType == Some("pressure")
    ensures forall s :: s in {"buzzer", "status"} ==> SegmentKind(s, value).evaluationType.None?
  {
  }

  /** A segment outside the table is an unlabelled sensor with no evaluation. */
  lemma UnknownSegment(segment: string, value: Json)
    requires segment !in {"temperature", "humidity", "distance", "light", "air_quality", "buzzer",
      "status", "fan", "motor", "temperatura", "humedad", "distancia", "luz", "gas", "presion", "leds"}
    ensures SegmentKind(segment, value) == Kind("", JStr("Sensor"), None)
  {
  }

  /** The value a reading stores: `valor` when the object has one, otherwise
      `state`, then `value`, then the object's JSON text; a payload that is
      not an object is stored as it is. */
  function SelectValue(parsed: Json): (r: Valor)
    requires !parsed.JNull?
    ensures !IsObjectType(parsed) ==> r == Raw(parsed)
    ensures Member(parsed, "valor").Some? ==> r == Raw(Member(parsed, "valor").value)
    ensures (IsObjectType(parsed) && Member(parsed, "valor").None? && Member(parsed, "state").None?
             && Member(parsed, "value").None?) ==> r == JsonText(parsed)
  {
    if !IsObjectType(parsed) then Raw(parsed)
    else
      var valor := Member(parsed, "valor");
      var state := Member(parsed, "state");
      var value := Member(parsed, "value");
      if valor.Some? then Raw(valor.value)
      else if state.Some? then Raw(state.value)
      else if value.Some? then Raw(value.value)
      else JsonText(parsed)
  }

  /** The number the store evaluates an air-quality reading by: a boolean
      payload is 1 or 0, a text value is 1 exactly when it reads "malo" or
      "mala" in any case, or is "1"; every other sensor's value is kept. */
  function EvalValue(evaluationType: string, parsed: Json, value: Valor): (r: Valor)
    ensures evaluationType != "air_quality" ==> r == value
    ensures evaluationType == "air_quality" && parsed.JBool? ==>
      r == Raw(JNum(if parsed.b then 1.0 else 0.0))
    ensures evaluationType == "air_quality" && !parsed.JBool? && value.Raw? && value.json.JStr? ==>
      r == Raw(JNum(if ToLower(value.json.s) in {"malo", "mala"} || value.json.s == "1" then 1.0 else 0.0))
  {
    if evaluationType != "air_quality" then value
    else if parsed.JBool? then Raw(JNum(if parsed.b then 1.0 else 0.0))
    else match value
      case Raw(JStr(s)) =>
        Raw(JNum(if ToLower(s) == "malo" || ToLower(s) == "mala" || s == "1" then 1.0 else 0.0))
      case JsonText(_) => Raw(JNum(0.0))
      case _ => value
  }

  /** Upper-case spellings count as "malo". */
  lemma MaloAnyCase()
    ensures EvalValue("air_quality", JStr("MALO"), Raw(JStr("MALO"))) == Raw(JNum(1.0))
    ensures EvalValue("air_quality", JStr("Bueno"), Raw(JStr("Bueno"))) == Raw(JNum(0.0))
  {
    assert ToLower("MALO") == "malo";
  }

  /** The reading's time: `timestamp * 1000` when the payload carries a
      truthy `timestamp` beside its `valor` (`*` converts it with `Number`,
      so the text "1700000000" counts too), else now. */
  function PayloadTime(parsed: Json, now: int): (t: int)
    requires !parsed.JNull?
    ensures var ts := Member(parsed, "timestamp");
      TruthyOpt(ts) && ToNumber(ts.value).Some? ==> t == Trunc(ToNumber(ts.value).value * 1000.0)
    ensures !TruthyOpt(Member(parsed, "timestamp")) ==> t == now
  {
    var ts := Member(parsed, "timestamp");
    if TruthyOpt(ts) && ToNumber(ts.value).Some? then Trunc(ToNumber(ts.value).value * 1000.0) else now
  }

  /** A `timestamp` sent as decimal text is read as seconds, as a number is. */
  lemma TextTimestampCoerced(valor: Json, n: nat, now: int)
    requires n > 0
    ensures PayloadTime(JObj(map["valor" := valor, "timestamp" := JStr(NatText(n))]), now) == n * 1000
  {
    var p := JObj(map["valor" := valor, "timestamp" := JStr(NatText(n))]);
    StringToNumberNatText(n);
    assert Member(p, "timestamp") == Some(JStr(NatText(n)));
    assert ToNumber(JStr(NatText(n))) == Some(n as real);
    assert (n as real) * 1000.0 == (n * 1000) as real;
  }

  /** The reading a message becomes, or `None` when handling it throws (a
      `null` payload). */
  function Normalize(topic: string, parsed: Json, now: int): (r: Option<Reading>)
    ensures r.None? <==> parsed.JNull? && topic != CompleteTopic
    ensures r.Some? ==> r.value.topic == topic
    ensures topic == CompleteTopic && IsObjectType(parsed) ==>
      r.Some? && r.value.completeData == Some(parsed) && r.value.evaluationType.None?
  {
    if topic == CompleteTopic && IsObjectType(parsed) then
      Some(Reading(topic, Some(Raw(JStr("Datos completos del sistema"))), "", now,
                   Some(JStr("Sistema Completo")), Some(parsed), None, None))
    else match KindOf(topic, parsed)
      case None => None
      case Some(kind) =>
        var value := SelectValue(parsed);
        var hasValor := IsObjectType(parsed) && Member(parsed, "valor").Some?;
        var payloadUnit := Member(parsed, "unidad");
        var unit := if hasValor && TruthyOpt(payloadUnit) && payloadUnit.value.JStr?
                    then payloadUnit.value.s else kind.unidad;
        var time := if hasValor then PayloadTime(parsed, now) else now;
        var evalType := if kind.evaluationType.Some? && kind.evaluationType.value != ""
                        then kind.evaluationType else None;
        Some(Reading(topic, Some(value), unit, time, Some(kind.sensorType), None, evalType,
                     if evalType.Some? then Some(EvalValue(evalType.value, parsed, value)) else None))
  }

  /** A bare number, text or flag is stored as it is, with the unit, label
      and evaluation type its topic's last segment gives it, at the time it
      arrives. */
  lemma NormalizeScalar(topic: string, parsed: Json, now: int)
    requires topic != CompleteTopic && !IsObjectType(parsed)
    ensures var k := SegmentKind(LastSegment(topic, '/'), parsed);
      Normalize(topic, parsed, now)
        == Some(Reading(topic, Some(Raw(parsed)), k.unidad, now, Some(k.sensorType), None, k.evaluationType,
                        if k.evaluationType.Some? then Some(EvalValue(k.evaluationType.value, parsed, Raw(parsed))) else None))
  {
  }

  /** The Spanish temperature topic is measured in degrees Celsius. */
  lemma TemperaturaKind(value: Json)
    ensures SegmentKind("temperatura", value) == Kind("°C", JStr("Temperatura"), Some("temperature"))
  {
  }

  /** A temperature message in the old format is measured by its value. */
  lemma NormalizeTemperature(now: int)
    ensures var r := Normalize("GRUPO2/sensores/rasp01/temperatura", JNum(31.5), now);
      && r.Some? && r.value.unidad == "°C" && r.value.timestamp == now
      && r.value.evaluationType == Some("temperature") && r.value.evalValue == Some(Raw(JNum(31.5)))
  {
    var t := "GRUPO2/sensores/rasp01/temperatura";
    assert LastSegment(t, '/') == "temperatura" by {
      assert t == "GRUPO2/sensores/rasp01" + ['/'] + "temperatura";
      LastSegmentAfter("GRUPO2/sensores/rasp01", "temperatura", '/');
    }
    TemperaturaKind(JNum(31.5));
    NormalizeScalar(t, JNum(31.5), now);
  }

  /** An air-quality alarm flag is measured as 1. */
  lemma NormalizeAirAlarm(now: int)
    ensures Normalize("GRUPO2/sensores/rasp01/air_quality", JBool(true), now).value.evalValue
      == Some(Raw(JNum(1.0)))
  {
    var a := "GRUPO2/sensores/rasp01/air_quality";
    assert LastSegment(a, '/') == "air_quality" by {
      assert a == "GRUPO2/sensores/rasp01" + ['/'] + "air_quality";
      LastSegmentAfter("GRUPO2/sensores/rasp01", "air_quality", '/');
    }
    AirQualityKind();
    NormalizeScalar(a, JBool(true), now);
  }

  /** The air-quality segment is evaluated as air quality, where `true` is 1. */
  lemma AirQualityKind()
    ensures SegmentKind("air_quality", JBool(true)).evaluationType == Some("air_quality")
    ensures EvalValue("air_quality", JBool(true), Raw(JBool(true))) == Raw(JNum(1.0))
  {
  }

  /** What a status topic reports to the page: the sensor (last segment) and
      its `enabled` flag, when both are there. */
  function StatusReport(topic: string, parsed: Json): Option<(string, Json)>
    requires !parsed.JNull?
  {
    var sensor := LastSegment(topic, '/');
    var enabled := Member(parsed, "enabled");
    if StartsWith(topic, StatusPrefix) && sensor != "" && enabled.Some? then Some((sensor, enabled.value))
    else None
  }

  /** A message as it is published: a text payload verbatim, anything else as
      its JSON text. */
  datatype Outgoing = Verbatim(text: string) | Encoded(value: Json)

  function Encode(payload: Json): (m: Outgoing)
    ensures payload.JStr? <==> m.Verbatim?
    ensures payload.JStr? ==> m == Verbatim(payload.s)
    ensures !payload.JStr? ==> m == Encoded(payload)
  {
    if payload.JStr? then Verbatim(payload.s) else Encoded(payload)
  }

  /** The hook's state, the client it drives and the store it feeds. */
  class Hook {
    var isConnected: bool
    var connectionStatus: string
    var sensorData: seq<Reading>
    /** A client object exists, and whether it reports itself connected. */
    var hasClient: bool
    var clientConnected: bool
    /** Messages handed to the client, in order. */
    var published: seq<(string, Outgoing)>
    /** The number of times `connect` was asked to start over. */
    var reconnects: nat
    const store: Store

    ghost predicate Valid()
      reads this, store
    {
      |sensorData| <= MaxLocal && store.Valid()
    }

    constructor (store: Store, hasClient: bool, clientConnected: bool)
      requires store.Valid()
      ensures Valid() && this.store == store
      ensures sensorData == [] && published == [] && reconnects == 0
      ensures !isConnected && connectionStatus == "Desconectado"
      ensures this.hasClient == hasClient && this.clientConnected == clientConnected
    {
      this.store := store;
      isConnected := false;
      connectionStatus := "Desconectado";
      sensorData := [];
      this.hasClient := hasClient;
      this.clientConnected := clientConnected;
      published := [];
      reconnects := 0;
    }

    /** The `message` handler: the reading is put first in the hook's list
        (at most 50 kept) and passed to the store; a message whose handling
        throws is dropped. A status topic also reports the sensor's flag. */
    method HandleMessage(topic: string, parsed: Json, hasStatusListener: bool, now: int,
                         alertId: string, alertMessage: string)
      returns (report: Option<(string, Json)>)
      requires Valid()
      modifies this`sensorData, store`sensorData, store`sensorHistory, store`historyOrder,
               store`chartData, store`alerts, store`status
      ensures Valid()
      ensures report.Some? ==> hasStatusListener && !parsed.JNull? && report == StatusReport(topic, parsed)
      ensures hasStatusListener && StartsWith(topic, StatusPrefix) && !parsed.JNull? ==>
        report == StatusReport(topic, parsed)
      ensures parsed.JNull? && StartsWith(topic, StatusPrefix) && hasStatusListener ==>
        sensorData == old(sensorData) && unchanged(store)
      ensures !(parsed.JNull? && StartsWith(topic, StatusPrefix) && hasStatusListener) ==>
        match Normalize(topic, parsed, now)
        case None => sensorData == old(sensorData) && unchanged(store)
        case Some(r) =>
          && sensorData == [r] + Take(old(sensorData), MaxLocal - 1)
          && store.SensorDataAdded(r, now, alertId, alertMessage)
    {
      report := None;
      if StartsWith(topic, StatusPrefix) && hasStatusListener {
        if parsed.JNull? {
          return;
        }
        report := StatusReport(topic, parsed);
      }
      var reading := Normalize(topic, parsed, now);
      if reading.None? {
        return;
      }
      sensorData := [reading.value] + Take(sensorData, MaxLocal - 1);
      store.AddSensorData(reading.value, now, alertId, alertMessage);
    }

    /** `publishCommand`: false without a client; a client that is connected
        while the hook thinks otherwise brings the hook's state in line; a
        disconnected client gets nothing (and a reconnect if the hook thought
        it was connected); otherwise the payload is handed over and the
        client's answer `queued` is returned. */
    method PublishCommand(topic: string, payload: Json, queued: bool, now: int) returns (ok: bool)
      requires Valid()
      modifies this`isConnected, this`connectionStatus, this`published, this`reconnects, store`status
      ensures Valid()
      ensures ok ==> hasClient && clientConnected && queued
      ensures hasClient && clientConnected ==>
        ok == queued && published == old(published) + [(topic, Encode(payload))] && isConnected
      ensures !(hasClient && clientConnected) ==> !ok && published == old(published)
      ensures hasClient && !clientConnected && old(isConnected) ==> reconnects == old(reconnects) + 1
      ensures !(hasClient && !clientConnected && old(isConnected)) ==> reconnects == old(reconnects)
      ensures hasClient && clientConnected && !old(isConnected) ==>
        && connectionStatus == "Conectado"
        && store.status == old(store.status).(isConnected := true, mqttStatus := "Conectado", lastSync := Some(now))
      ensures !(hasClient && clientConnected && !old(isConnected)) ==>
        && isConnected == old(isConnected)
        && connectionStatus == old(connectionStatus)
        && store.status == old(store.status)
    {
      if !hasClient {
        return false;
      }
      if clientConnected && !isConnected {
        isConnected := true;
        connectionStatus := "Conectado";
        store.UpdateConnectionStatus(true, "Conectado", now);
      }
      if !clientConnected {
        if isConnected {
          reconnects := reconnects + 1;
        }
        return false;
      }
      published := published + [(topic, Encode(payload))];
      ok := queued;
    }

    /** `requestHistoricalData`: only a connected hook asks, on the history
        command topic, for `maxPoints` points of `sensorType`. */
    method RequestHistoricalData(sensorType: string, maxPoints: real, isoNow: string, queued: bool)
      returns (ok: bool)
      requires Valid()
      modifies this`published
      ensures Valid()
      ensures !(hasClient && isConnected) ==> !ok && published == old(published)
      ensures hasClient && isConnected ==> ok == queued && published == old(published) + [(HistoryTopic,
        Encoded(JObj(map["sensor_type" := JStr(sensorType), "max_points" := JNum(maxPoints),
                         "timestamp" := JStr(isoNow), "source" := JStr("frontend")])))]
    {
      if !hasClient || !isConnected {
        return false;
      }
      var payload := JObj(map["sensor_type" := JStr(sensorType), "max_points" := JNum(maxPoints),
                              "timestamp" := JStr(isoNow), "source" := JStr("frontend")]);
      published := published + [(HistoryTopic, Encoded(payload))];
      ok := queued;
    }
  }
}
