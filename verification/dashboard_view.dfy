/**
 * The dashboard page: the LED and buzzer state it reads back from the
 * readings, the latest reading per sensor, the six status cards, the alert
 * list, and the LED, fan and power handlers with their optimistic updates.
 */
module DashboardView {
  import opened Wrappers
  import opened Text
  import opened Js
  import opened StoreModel
  import opened Latest
  import MqttHook

  const LedsTopic := "GRUPO2/status/rasp01/leds"
  const BuzzerTopic := "GRUPO2/actuadores/rasp01/buzzer"
  const ControlTopic := "GRUPO2/commands/rasp01/leds/control"
  const IndividualTopic := "GRUPO2/commands/rasp01/leds/individual"
  const PatternTopic := "GRUPO2/commands/rasp01/leds/pattern"
  const BuzzerCommandTopic := "GRUPO2/commands/rasp01/buzzer"
  const FanTopic := "GRUPO2/commands/rasp01/actuators/fan"
  const SensorCommandPrefix := "GRUPO2/commands/rasp01/sensors/"

  // ---------------------------------------------------------------------------
  // Finding readings

  /** The index `data.find(d => d.topic === topic)` stops at. */
  function FindIndex(data: seq<Reading>, topic: string): (r: Option<nat>)
    ensures r.None? <==> forall i :: 0 <= i < |data| ==> data[i].topic != topic
    ensures r.Some? ==> (r.value < |data| && data[r.value].topic == topic
      && forall j :: 0 <= j < r.value ==> data[j].topic != topic)
  {
    if data == [] then None
    else if data[0].topic == topic then Some(0)
    else match FindIndex(data[1..], topic)
      case None => None
      case Some(i) => Some(i + 1)
  }

  /** `data.find(d => d.topic === topic)`. */
  function FindTopic(data: seq<Reading>, topic: string): (r: Option<Reading>)
    ensures r.None? <==> forall i :: 0 <= i < |data| ==> data[i].topic != topic
    ensures r.Some? ==> r.value.topic == topic && r.value in data
  {
    match FindIndex(data, topic)
    case None => None
    case Some(i) => Some(data[i])
  }

  // ---------------------------------------------------------------------------
  // LED and buzzer state

  /** The LED panel's state. An LED missing from `leds` reads as off. */
  datatype LedState = LedState(manualMode: bool, leds: map<string, bool>, buzzer: bool)

  function AllLeds(on: bool): map<string, bool> {
    map["temperature" := on, "humidity" := on, "light" := on, "air_quality" := on]
  }

  function InitialLeds(): LedState {
    LedState(false, AllLeds(false), false)
  }

  /** Whether a flag map holds `k` as on (`undefined` reads as off). */
  predicate IsOn(m: map<string, bool>, k: string) {
    k in m && m[k]
  }

  /** `processedData.leds || defaults`, each LED kept by its truthiness; a
      truthy value that is not an object has no LEDs of its own. */
  function LedsOf(v: Option<Json>): map<string, bool> {
    if !TruthyOpt(v) then AllLeds(false)
    else if v.value.JObj? then map k | k in v.value.fields :: Truthy(v.value.fields[k])
    else map[]
  }

  /** The LED status payload: the reading's value when `typeof valor ===
      "object"` and it is not `null`. A reading carries no `manual_mode` of
      its own, so the other branch of the source never applies. */
  function LedPayload(r: Reading): (p: Option<Json>)
    ensures p.Some? ==> !p.value.JNull? && r.valor == Some(Raw(p.value))
  {
    if r.valor.Some? && r.valor.value.Raw? && IsObjectType(r.valor.value.json) && !r.valor.value.json.JNull?
    then Some(r.valor.value.json) else None
  }

  /** The buzzer topic reports the buzzer on for `true`, "ON" or "on". */
  predicate BuzzerOn(v: Option<Valor>) {
    v == Some(Raw(JBool(true))) || v == Some(Raw(JStr("ON"))) || v == Some(Raw(JStr("on")))
  }

  /** The LED panel after the readings change: the first LED status reading
      sets the mode and the LEDs (and the buzzer when it names one); then the
      first buzzer reading decides the buzzer. */
  function LedsAfterData(prev: LedState, data: seq<Reading>): (s: LedState)
    ensures FindTopic(data, BuzzerTopic).Some? ==>
      (s.buzzer <==> BuzzerOn(FindTopic(data, BuzzerTopic).value.valor))
    ensures FindTopic(data, LedsTopic).None? && FindTopic(data, BuzzerTopic).None? ==> s == prev
    ensures FindTopic(data, LedsTopic).None? ==> s.manualMode == prev.manualMode && s.leds == prev.leds
    ensures FindTopic(data, LedsTopic).Some? && LedPayload(FindTopic(data, LedsTopic).value).Some? ==>
      var p := LedPayload(FindTopic(data, LedsTopic).value).value;
      s.manualMode == TruthyOpt(Member(p, "manual_mode")) && s.leds == LedsOf(Member(p, "leds"))
    ensures FindTopic(data, LedsTopic).Some? && LedPayload(FindTopic(data, LedsTopic).value).None? ==>
      s.manualMode == prev.manualMode && s.leds == prev.leds
    ensures FindTopic(data, BuzzerTopic).None? ==>
      var led := FindTopic(data, LedsTopic);
      if led.Some? && LedPayload(led.value).Some? && Member(LedPayload(led.value).value, "buzzer").Some?
      then s.buzzer == Truthy(Member(LedPayload(led.value).value, "buzzer").value)
      else s.buzzer == prev.buzzer
  {
    var afterLeds :=
      match FindTopic(data, LedsTopic)
      case None => prev
      case Some(r) =>
        match LedPayload(r)
        case None => prev
        case Some(p) =>
          var b := Member(p, "buzzer");
          LedState(TruthyOpt(Member(p, "manual_mode")), LedsOf(Member(p, "leds")),
                   if b.Some? then Truthy(b.value) else prev.buzzer);
    match FindTopic(data, BuzzerTopic)
    case None => afterLeds
    case Some(r) => afterLeds.(buzzer := BuzzerOn(r.valor))
  }

  /** The LEDs a pattern command shows; an unknown pattern keeps the current
      ones. */
  function PatternLeds(pattern: Json, current: map<string, bool>): (m: map<string, bool>)
    ensures pattern == JStr("all_on") ==> forall k :: k in m <==> k in AllLeds(true)
    ensures pattern == JStr("all_on") ==> forall k :: k in m ==> m[k]
    ensures pattern == JStr("all_off") ==> m.Keys == AllLeds(false).Keys && forall k :: k in m ==> !m[k]
    ensures pattern == JStr("alternate") ==>
      m.Keys == AllLeds(false).Keys && forall k :: k in m ==> (m[k] <==> k == "temperature" || k == "light")
    ensures pattern == JStr("sequence") ==>
      m.Keys == AllLeds(false).Keys && forall k :: k in m ==> (m[k] <==> k == "temperature")
    ensures pattern !in {JStr("all_on"), JStr("all_off"), JStr("alternate"), JStr("sequence")} ==> m == current
  {
    if pattern == JStr("all_on") then AllLeds(true)
    else if pattern == JStr("all_off") then AllLeds(false)
    else if pattern == JStr("alternate") then
      map["temperature" := true, "humidity" := false, "light" := true, "air_quality" := false]
    else if pattern == JStr("sequence") then
      map["temperature" := true, "humidity" := false, "light" := false, "air_quality" := false]
    else current
  }

  /** A pattern shown twice is the pattern shown once, and a known pattern
      does not depend on what was lit before. */
  lemma PatternIdempotent(pattern: Json, current: map<string, bool>, other: map<string, bool>)
    ensures PatternLeds(pattern, PatternLeds(pattern, current)) == PatternLeds(pattern, current)
    ensures pattern in {JStr("all_on"), JStr("all_off"), JStr("alternate"), JStr("sequence")} ==>
      PatternLeds(pattern, current) == PatternLeds(pattern, other)
  {
  }

  /** An individual toggle: the named LED flips (an unknown one turns on,
      since `!undefined` is true). */
  function ToggleLed(leds: map<string, bool>, led: string): (m: map<string, bool>)
    ensures IsOn(m, led) == !IsOn(leds, led)
    ensures forall k :: k != led ==> (k in m <==> k in leds) && (k in m ==> m[k] == leds[k])
  {
    leds[led := !IsOn(leds, led)]
  }

  /** Toggling the same LED twice leaves every LED reading as before. */
  lemma ToggleTwice(leds: map<string, bool>, led: string, k: string)
    ensures IsOn(ToggleLed(ToggleLed(leds, led), led), k) == IsOn(leds, k)
  {
  }

  // ---------------------------------------------------------------------------
  // The latest reading per sensor

  /** `data.sensor_type?.toLowerCase()` when it is a non-empty text. */
  function SensorKey(r: Reading): (k: Option<string>)
    ensures k.Some? ==> k.value != ""
  {
    if r.sensorType.Some? && r.sensorType.value.JStr? && r.sensorType.value.s != ""
    then Some(ToLower(r.sensorType.value.s)) else None
  }

  function Time(r: Reading): int { r.timestamp }

  /** A value that is a sensor's on/off report: an object with a truthy
      `sensor` and an `enabled` field. */
  predicate IsStatusPayload(v: Option<Valor>) {
    v.Some? && v.value.Raw? && v.value.json.JObj?
    && TruthyOpt(Member(v.value.json, "sensor")) && Member(v.value.json, "enabled").Some?
  }

  /** The readings the status cards look at: neither on a sensor status
      topic nor carrying an on/off report. */
  predicate IsSensorReading(r: Reading) {
    !StartsWith(r.topic, MqttHook.StatusPrefix) && !IsStatusPayload(r.valor)
  }

  /** The cards' latest reading per lower-cased sensor type. */
  function CardLatest(data: seq<Reading>): map<string, Reading> {
    LatestBy(Filter(data, IsSensorReading), SensorKey, Time)
  }

  /** The alert list's latest reading per lower-cased sensor type (it does
      not filter). */
  function AlertLatest(data: seq<Reading>): map<string, Reading> {
    LatestBy(data, SensorKey, Time)
  }

  /** The cards keep, under each sensor type, a sensor reading of that type
      that no other sensor reading of the type is later than; status topics
      and on/off reports never reach a card. */
  lemma CardLatestIsLatest(data: seq<Reading>, k: string)
    requires k in CardLatest(data)
    ensures var r := CardLatest(data)[k];
      r in data && IsSensorReading(r) && SensorKey(r) == Some(k)
      && forall x :: x in data && IsSensorReading(x) && SensorKey(x) == Some(k) ==> x.timestamp <= r.timestamp
  {
    var f := Filter(data, IsSensorReading);
    FilterMembers(data, IsSensorReading);
    LatestByEntry(f, SensorKey, Time, k);
    var r := CardLatest(data)[k];
    var i :| 0 <= i < |f| && f[i] == r && SensorKey(f[i]) == Some(k);
    forall x | x in data && IsSensorReading(x) && SensorKey(x) == Some(k)
      ensures x.timestamp <= r.timestamp
    {
      var j :| 0 <= j < |f| && f[j] == x;
      LatestByMax(f, SensorKey, Time, j);
    }
  }

  /** Without status traffic both derivations see the same latest readings. */
  lemma LatestAgree(data: seq<Reading>)
    requires forall i :: 0 <= i < |data| ==> IsSensorReading(data[i])
    ensures CardLatest(data) == AlertLatest(data)
  {
    FilterAll(data, IsSensorReading);
  }

  /** `latestData[key]?.valor`. */
  function ValorAt(latest: map<string, Reading>, key: string): Option<Valor> {
    if key in latest then latest[key].valor else None
  }

  predicate TruthyAt(v: Option<Valor>) {
    v.Some? && TruthyValor(v.value)
  }

  /** The number a stored value stands for in `<` and `>` against a number:
      `ToNumber` of a parsed value, so numeric text such as "1000" compares
      as its number; the JSON text of an object or array and a missing value
      are NaN (`None`), and every comparison with NaN is false. */
  function RelNumber(v: Option<Valor>): Option<real> {
    match v
    case Some(Raw(j)) => ToNumber(j)
    case _ => None
  }

  predicate Lt(v: Option<Valor>, c: real) { RelNumber(v).Some? && RelNumber(v).value < c }
  predicate Gt(v: Option<Valor>, c: real) { RelNumber(v).Some? && RelNumber(v).value > c }

  // ---------------------------------------------------------------------------
  // Status cards

  datatype Color = SuccessColor | WarningColor | DangerColor | PrimaryColor

  /** A card's trend line and colour (its value text is left out). */
  datatype Card = Card(trend: string, color: Color)

  const Off := "Sensor apagado"
  const Waiting := "Esperando datos..."

  /** The temperature and humidity card. */
  function ClimateCard(enabled: bool, temp: Option<Valor>, hum: Option<Valor>, isConnected: bool): (c: Card)
    ensures c.color == DangerColor <==> !enabled
    ensures c.color == SuccessColor <==> enabled && TruthyAt(temp) && TruthyAt(hum)
    ensures enabled ==> c.trend == (if isConnected then "En línea" else "Desconectado")
  {
    if !enabled then Card(Off, DangerColor)
    else Card(if isConnected then "En línea" else "Desconectado",
              if TruthyAt(temp) && TruthyAt(hum) then SuccessColor else WarningColor)
  }

  /** The trend a card shows from a reading's unit: the unit, or the waiting
      text when there is no reading or its unit is empty. */
  function UnitTrend(latest: map<string, Reading>, key: string): string {
    if key in latest && latest[key].unidad != "" then latest[key].unidad else Waiting
  }

  /** The air-quality card: green for "BUENA", red for "MALA". */
  function AirCard(enabled: bool, latest: map<string, Reading>): (c: Card)
    ensures c.color == DangerColor <==> !enabled || ValorAt(latest, "calidad del aire") == Some(Raw(JStr("MALA")))
    ensures c.color == SuccessColor <==> enabled && ValorAt(latest, "calidad del aire") == Some(Raw(JStr("BUENA")))
  {
    var v := ValorAt(latest, "calidad del aire");
    if !enabled then Card(Off, DangerColor)
    else Card(UnitTrend(latest, "calidad del aire"),
              if v == Some(Raw(JStr("BUENA"))) then SuccessColor
              else if v == Some(Raw(JStr("MALA"))) then DangerColor
              else WarningColor)
  }

  /** The lighting card: green only for "SI". */
  function LightCard(enabled: bool, latest: map<string, Reading>): (c: Card)
    ensures c.color == DangerColor <==> !enabled
    ensures c.color == SuccessColor <==> enabled && ValorAt(latest, "luz") == Some(Raw(JStr("SI")))
  {
    if !enabled then Card(Off, DangerColor)
    else Card(UnitTrend(latest, "luz"),
              if ValorAt(latest, "luz") == Some(Raw(JStr("SI"))) then SuccessColor else WarningColor)
  }

  /** The distance card: blue once a truthy distance arrives. */
  function MotionCard(enabled: bool, latest: map<string, Reading>): (c: Card)
    ensures c.color == DangerColor <==> !enabled
    ensures c.color == PrimaryColor <==> enabled && TruthyAt(ValorAt(latest, "distancia"))
    ensures enabled ==> (c.trend == "Detectando" <==> "distancia" in latest)
  {
    if !enabled then Card(Off, DangerColor)
    else Card(if "distancia" in latest then "Detectando" else Waiting,
              if TruthyAt(ValorAt(latest, "distancia")) then PrimaryColor else WarningColor)
  }

  /** The pressure card. */
  function PressureCard(enabled: bool, v: Option<Valor>): (c: Card)
    ensures !enabled ==> c == Card(Off, DangerColor)
    ensures enabled && !TruthyAt(v) ==> c == Card(Waiting, WarningColor)
    ensures enabled && TruthyAt(v) ==>
      (c.color == DangerColor <==> Lt(v, 1005.0) || Gt(v, 1030.0))
      && (c.color == WarningColor <==> !(Lt(v, 1005.0) || Gt(v, 1030.0)) && (Lt(v, 1010.0) || Gt(v, 1025.0)))
      && (c.color == SuccessColor <==> !(Lt(v, 1010.0) || Gt(v, 1025.0)))
  {
    if !enabled then Card(Off, DangerColor)
    else if !TruthyAt(v) then Card(Waiting, WarningColor)
    else
      Card(if Lt(v, 1010.0) then "Baja presión" else if Gt(v, 1025.0) then "Alta presión" else "Normal",
           if Lt(v, 1005.0) || Gt(v, 1030.0) then DangerColor
           else if Lt(v, 1010.0) || Gt(v, 1025.0) then WarningColor
           else SuccessColor)
  }

  /** For a non-zero pressure in hPa the card follows the bands: red below
      1005 or above 1030, amber up to 1010 or from 1025, green between; the
      trend says low below 1010, high above 1025, and normal between. */
  lemma PressureBands(n: real)
    requires n != 0.0
    ensures var c := PressureCard(true, Some(Raw(JNum(n))));
      && (c.color == DangerColor <==> n < 1005.0 || n > 1030.0)
      && (c.color == WarningColor <==> (1005.0 <= n < 1010.0 || 1025.0 < n <= 1030.0))
      && (c.color == SuccessColor <==> 1010.0 <= n <= 1025.0)
      && (c.trend == "Baja presión" <==> n < 1010.0)
      && (c.trend == "Alta presión" <==> n > 1025.0)
      && (c.trend == "Normal" <==> 1010.0 <= n <= 1025.0)
  {
  }

  /** The fan card. */
  function FanCard(enabled: bool, v: Option<Valor>): (c: Card)
    ensures c.color == DangerColor <==> !enabled
    ensures c.color == SuccessColor <==> enabled && v == Some(Raw(JStr("ON")))
    ensures !enabled ==> c.trend == "Motor deshabilitado"
  {
    if !enabled then Card("Motor deshabilitado", DangerColor)
    else if v == Some(Raw(JStr("ON"))) then Card("Motor funcionando", SuccessColor)
    else if v == Some(Raw(JStr("OFF"))) then Card("Motor detenido", WarningColor)
    else Card(Waiting, WarningColor)
  }

  /** The six cards, by card id. */
  datatype Cards = Cards(climate: Card, air: Card, lighting: Card, motion: Card, pressure: Card, fan: Card)

  function InitialCards(): Cards {
    Cards(Card(Waiting, WarningColor), Card(Waiting, WarningColor), Card(Waiting, WarningColor),
          Card(Waiting, WarningColor), Card(Waiting, WarningColor), Card("Motor inactivo", DangerColor))
  }

  /** The cards after the readings, the connection flag or the sensor flags
      change: untouched while there are no readings, otherwise each computed
      from the latest sensor readings and its own flag. */
  function CardsAfter(prev: Cards, data: seq<Reading>, states: map<string, bool>, isConnected: bool): (c: Cards)
    ensures data == [] ==> c == prev
    ensures data != [] ==> c.climate == ClimateCard(IsOn(states, "temperature_humidity"),
      ValorAt(CardLatest(data), "temperatura"), ValorAt(CardLatest(data), "humedad"), isConnected)
    ensures data != [] ==> c.air == AirCard(IsOn(states, "air_quality"), CardLatest(data))
    ensures data != [] ==> c.lighting == LightCard(IsOn(states, "lighting"), CardLatest(data))
    ensures data != [] ==> c.motion == MotionCard(IsOn(states, "motion_detection"), CardLatest(data))
    ensures data != [] ==> c.pressure == PressureCard(IsOn(states, "pressure"), ValorAt(CardLatest(data), "presión"))
    ensures data != [] ==> c.fan == FanCard(IsOn(states, "fan"), ValorAt(CardLatest(data), "ventilador"))
  {
    if data == [] then prev
    else
      var latest := CardLatest(data);
      Cards(ClimateCard(IsOn(states, "temperature_humidity"), ValorAt(latest, "temperatura"),
                        ValorAt(latest, "humedad"), isConnected),
            AirCard(IsOn(states, "air_quality"), latest),
            LightCard(IsOn(states, "lighting"), latest),
            MotionCard(IsOn(states, "motion_detection"), latest),
            PressureCard(IsOn(states, "pressure"), ValorAt(latest, "presión")),
            FanCard(IsOn(states, "fan"), ValorAt(latest, "ventilador")))
  }

  // ---------------------------------------------------------------------------
  // Alert list

  /** An entry of the dashboard's alert list (title, description and time
      text are left out). */
  datatype DashAlert = DashAlert(id: string, level: AlertType)

  function AirAlert(v: Option<Valor>): (r: seq<DashAlert>)
    ensures r != [] <==> v == Some(Raw(JStr("MALA")))
    ensures forall y :: y in r ==> y.id == "air_quality_alert"
  {
    if v == Some(Raw(JStr("MALA"))) then [DashAlert("air_quality_alert", Danger)] else []
  }

  function BuzzerAlert(v: Option<Valor>): (r: seq<DashAlert>)
    ensures r != [] <==> v == Some(Raw(JStr("ON")))
    ensures forall y :: y in r ==> y.id == "buzzer_alert"
  {
    if v == Some(Raw(JStr("ON"))) then [DashAlert("buzzer_alert", Danger)] else []
  }

  function TempAlert(v: Option<Valor>): (r: seq<DashAlert>)
    ensures r != [] <==> TruthyAt(v) && (Gt(v, 30.0) || Lt(v, 18.0))
    ensures forall y :: y in r ==> y == DashAlert("temp_alert", Danger)
  {
    if TruthyAt(v) && (Gt(v, 30.0) || Lt(v, 18.0)) then [DashAlert("temp_alert", Danger)] else []
  }

  function PressureAlert(v: Option<Valor>): (r: seq<DashAlert>)
    ensures |r| <= 1
    ensures forall y :: y in r ==> y.id == "pressure_alert" || y.id == "pressure_warning"
    ensures r == [DashAlert("pressure_alert", Danger)] <==> TruthyAt(v) && (Lt(v, 1005.0) || Gt(v, 1030.0))
    ensures r == [DashAlert("pressure_warning", Warning)] <==>
      TruthyAt(v) && !(Lt(v, 1005.0) || Gt(v, 1030.0)) && (Lt(v, 1010.0) || Gt(v, 1025.0))
  {
    if TruthyAt(v) && (Lt(v, 1005.0) || Gt(v, 1030.0)) then [DashAlert("pressure_alert", Danger)]
    else if TruthyAt(v) && (Lt(v, 1010.0) || Gt(v, 1025.0)) then [DashAlert("pressure_warning", Warning)]
    else []
  }

  function FanAlert(v: Option<Valor>, fanEnabled: bool): (r: seq<DashAlert>)
    ensures |r| <= 1
    ensures forall y :: y in r ==> y.id == "fan_active" || y.id == "fan_error"
    ensures r == [DashAlert("fan_active", Info)] <==> v == Some(Raw(JStr("ON"))) && fanEnabled
  {
    if v == Some(Raw(JStr("ON"))) && fanEnabled then [DashAlert("fan_active", Info)]
    else if v == Some(Raw(JStr("ERROR"))) then [DashAlert("fan_error", Danger)]
    else []
  }

  /** The alert list: the connection entry first, then, when there are
      readings, the air, temperature, buzzer, pressure and fan alerts that
      the latest readings call for. */
  function DashAlerts(data: seq<Reading>, isConnected: bool, fanEnabled: bool): (r: seq<DashAlert>)
    ensures |r| >= 1 && r[0] == DashAlert("connection_status", if isConnected then Info else Danger)
    ensures data == [] ==> |r| == 1
    ensures |r| <= 6
  {
    var head := [DashAlert("connection_status", if isConnected then Info else Danger)];
    if data == [] then head
    else
      var latest := AlertLatest(data);
      head
      + AirAlert(ValorAt(latest, "calidad del aire"))
      + TempAlert(ValorAt(latest, "temperatura"))
      + BuzzerAlert(ValorAt(latest, "buzzer"))
      + PressureAlert(ValorAt(latest, "presión"))
      + FanAlert(ValorAt(latest, "ventilador"), fanEnabled)
  }

  lemma ThousandText()
    ensures ToNumber(JStr("1000")) == Some(1000.0)
  {
    assert NatText(1) == "1";
    assert NatText(10) == "10";
    assert NatText(100) == "100";
    assert NatText(1000) == "1000";
    StringToNumberNatText(1000);
  }

  lemma ThirtyFiveText()
    ensures ToNumber(JStr("35")) == Some(35.0)
  {
    assert NatText(3) == "3";
    assert NatText(35) == "35";
    StringToNumberNatText(35);
  }

  lemma WordText()
    ensures ToNumber(JStr("Baja")).None?
  {
    AlnumNotSpace('B');
    AlnumNotSpace('a');
    TrimNothing("Baja");
    assert LeadingDigits("Baja") == 0;
  }

  /** An array holding one number compares as that number. */
  lemma OneNumberArray(n: real)
    ensures ToNumber(JArr([JNum(n)])) == Some(n)
  {
    var items := [JNum(n)];
    assert |items| == 1 && !items[0].JBool?;
  }

  /** A truthy reading that compares as a number below 1005. */
  lemma VeryLowPressure(v: Option<Valor>, n: real)
    requires TruthyAt(v) && RelNumber(v) == Some(n) && n < 1005.0
    ensures PressureCard(true, v) == Card("Baja presión", DangerColor)
    ensures PressureAlert(v) == [DashAlert("pressure_alert", Danger)]
  {
  }

  /** A truthy reading that compares as a number above 30. */
  lemma HighTemperature(v: Option<Valor>, n: real)
    requires TruthyAt(v) && RelNumber(v) == Some(n) && n > 30.0
    ensures TempAlert(v) == [DashAlert("temp_alert", Danger)]
  {
  }

  /** A reading that does not compare as a number raises neither alert. */
  lemma NotANumber(v: Option<Valor>)
    requires RelNumber(v).None?
    ensures TempAlert(v) == [] && PressureAlert(v) == []
  {
  }

  /** A pressure that arrives as the text "1000" is compared as the number
      1000: the card says "Baja presión" in the danger colour and the pressure
      alert fires. */
  lemma PressureTextCompares()
    ensures PressureCard(true, Some(Raw(JStr("1000")))) == Card("Baja presión", DangerColor)
    ensures PressureAlert(Some(Raw(JStr("1000")))) == [DashAlert("pressure_alert", Danger)]
  {
    ThousandText();
    VeryLowPressure(Some(Raw(JStr("1000"))), 1000.0);
  }

  /** A temperature that arrives as the text "35", or as the array [35],
      raises the temperature alert. */
  lemma TempTextCompares()
    ensures TempAlert(Some(Raw(JStr("35")))) == [DashAlert("temp_alert", Danger)]
    ensures TempAlert(Some(Raw(JArr([JNum(35.0)])))) == [DashAlert("temp_alert", Danger)]
  {
    ThirtyFiveText();
    HighTemperature(Some(Raw(JStr("35"))), 35.0);
    OneNumberArray(35.0);
    HighTemperature(Some(Raw(JArr([JNum(35.0)]))), 35.0);
  }

  /** Text that is not a number never compares: "Baja" gives neither a
      temperature alert nor a pressure alert. */
  lemma NonNumericTextNeverAlerts()
    ensures TempAlert(Some(Raw(JStr("Baja")))) == []
    ensures PressureAlert(Some(Raw(JStr("Baja")))) == []
  {
    WordText();
    NotANumber(Some(Raw(JStr("Baja"))));
  }

  /** Membership in the six parts of the list. */
  lemma InParts(x: DashAlert, a: seq<DashAlert>, b: seq<DashAlert>, c: seq<DashAlert>,
                d: seq<DashAlert>, e: seq<DashAlert>, f: seq<DashAlert>)
    ensures x in a + b + c + d + e + f <==> x in a || x in b || x in c || x in d || x in e || x in f
  {
  }

  /** The list names a temperature alert exactly when the latest temperature
      is truthy and above 30 or below 18. */
  lemma DashAlertsTemperature(data: seq<Reading>, isConnected: bool, fanEnabled: bool)
    requires data != []
    ensures var v := ValorAt(AlertLatest(data), "temperatura");
      (DashAlert("temp_alert", Danger) in DashAlerts(data, isConnected, fanEnabled))
        <==> TruthyAt(v) && (Gt(v, 30.0) || Lt(v, 18.0))
  {
    var latest := AlertLatest(data);
    var x := DashAlert("temp_alert", Danger);
    var t := TempAlert(ValorAt(latest, "temperatura"));
    InParts(x, [DashAlert("connection_status", if isConnected then Info else Danger)], AirAlert(ValorAt(latest, "calidad del aire")), t,
            BuzzerAlert(ValorAt(latest, "buzzer")), PressureAlert(ValorAt(latest, "presión")),
            FanAlert(ValorAt(latest, "ventilador"), fanEnabled));
    assert t != [] ==> x in t;
  }

  /** The list names a pressure alert (danger) exactly when the latest
      pressure is truthy and outside [1005, 1030]. */
  lemma DashAlertsPressure(data: seq<Reading>, isConnected: bool, fanEnabled: bool)
    requires data != []
    ensures var v := ValorAt(AlertLatest(data), "presión");
      (DashAlert("pressure_alert", Danger) in DashAlerts(data, isConnected, fanEnabled))
        <==> TruthyAt(v) && (Lt(v, 1005.0) || Gt(v, 1030.0))
  {
    var latest := AlertLatest(data);
    var x := DashAlert("pressure_alert", Danger);
    var p := PressureAlert(ValorAt(latest, "presión"));
    InParts(x, [DashAlert("connection_status", if isConnected then Info else Danger)], AirAlert(ValorAt(latest, "calidad del aire")),
            TempAlert(ValorAt(latest, "temperatura")), BuzzerAlert(ValorAt(latest, "buzzer")), p,
            FanAlert(ValorAt(latest, "ventilador"), fanEnabled));
    assert x in p <==> p == [x];
  }

  /** When no status traffic is mixed in, the pressure card is red exactly
      when the alert list carries the pressure danger alert, and amber with
      a reading exactly when it carries the pressure warning. */
  lemma PressureCardMatchesAlert(data: seq<Reading>)
    requires data != []
    requires forall i :: 0 <= i < |data| ==> IsSensorReading(data[i])
    ensures var v := ValorAt(CardLatest(data), "presión");
      var c := PressureCard(true, v);
      && (c.color == DangerColor <==> PressureAlert(ValorAt(AlertLatest(data), "presión")) == [DashAlert("pressure_alert", Danger)])
      && (c.color == WarningColor && TruthyAt(v) <==>
          PressureAlert(ValorAt(AlertLatest(data), "presión")) == [DashAlert("pressure_warning", Warning)])
  {
    LatestAgree(data);
  }

  // ---------------------------------------------------------------------------
  // Handlers

  /** A command from the LED panel, by its `type`. */
  datatype LedCommand =
    | Control(mode: Json)
    | Individual(led: string, action: Json)
    | Pattern(pattern: Json)
    | BuzzerCommand(state: Json)
    | UnknownCommand

  /** The payload of every command: the fields, the time and the source. */
  function Stamped(fields: map<string, Json>, isoNow: string): Json {
    JObj(fields["timestamp" := JStr(isoNow)]["source" := JStr("frontend")])
  }

  /** The topic and payload a command is sent with. */
  function CommandMessage(cmd: LedCommand, isoNow: string): (m: Option<(string, Json)>)
    ensures m.None? <==> cmd.UnknownCommand?
  {
    match cmd
    case Control(mode) => Some((ControlTopic, Stamped(map["mode" := mode], isoNow)))
    case Individual(led, action) =>
      Some((IndividualTopic, Stamped(map["led" := JStr(led), "action" := action], isoNow)))
    case Pattern(pattern) => Some((PatternTopic, Stamped(map["pattern" := pattern], isoNow)))
    case BuzzerCommand(state) => Some((BuzzerCommandTopic, Stamped(map["enabled" := state], isoNow)))
    case UnknownCommand => None
  }

  /** The topics a power toggle publishes to. */
  function PowerTopics(id: string): (ts: seq<string>)
    ensures |ts| == if id == "temperature_humidity" then 2 else 1
    ensures id !in {"temperature_humidity", "lighting", "motion_detection", "pressure", "fan"} ==>
      ts == [SensorCommandPrefix + id]
  {
    match id
    case "temperature_humidity" => [SensorCommandPrefix + "temperature", SensorCommandPrefix + "humidity"]
    case "lighting" => [SensorCommandPrefix + "light"]
    case "motion_detection" => [SensorCommandPrefix + "distance"]
    case "pressure" => [SensorCommandPrefix + "pressure"]
    case "fan" => [FanTopic]
    case _ => [SensorCommandPrefix + id]
  }

  /** The messages a power toggle sends, one per topic. */
  function PowerMessages(topics: seq<string>, enabled: bool, isoNow: string): (ms: seq<(string, Json)>)
    ensures |ms| == |topics|
    ensures forall i :: 0 <= i < |topics| ==>
      ms[i] == (topics[i], Stamped(map["enabled" := JBool(enabled)], isoNow))
  {
    if topics == [] then []
    else (PowerMessages(topics[..|topics| - 1], enabled, isoNow)
          + [(topics[|topics| - 1], Stamped(map["enabled" := JBool(enabled)], isoNow))])
  }

  function InitialStates(): map<string, bool> {
    map["temperature_humidity" := true, "air_quality" := true, "lighting" := true,
        "motion_detection" := true, "pressure" := true, "fan" := true]
  }

  /** The page's own state. `requested` lists what was handed to
      `publishCommand`, in order. */
  class Dashboard {
    var sensorStates: map<string, bool>
    var ledStates: LedState
    var requested: seq<(string, Json)>

    constructor ()
      ensures sensorStates == InitialStates() && ledStates == InitialLeds() && requested == []
    {
      sensorStates := InitialStates();
      ledStates := InitialLeds();
      requested := [];
    }

    /** The readings changed: the LED panel reads them back. */
    method SyncLeds(data: seq<Reading>)
      modifies this`ledStates
      ensures ledStates == LedsAfterData(old(ledStates), data)
    {
      var leds := FindTopic(data, LedsTopic);
      if leds.Some? {
        var p := LedPayload(leds.value);
        if p.Some? {
          var b := Member(p.value, "buzzer");
          ledStates := LedState(TruthyOpt(Member(p.value, "manual_mode")), LedsOf(Member(p.value, "leds")),
                                if b.Some? then Truthy(b.value) else ledStates.buzzer);
        }
      }
      var buzzer := FindTopic(data, BuzzerTopic);
      if buzzer.Some? {
        ledStates := ledStates.(buzzer := BuzzerOn(buzzer.value.valor));
      }
    }

    /** A sensor reported itself on or off. */
    method OnSensorStatus(sensor: string, enabled: Json)
      modifies this`sensorStates
      ensures sensorStates == old(sensorStates)[sensor := Truthy(enabled)]
    {
      sensorStates := sensorStates[sensor := Truthy(enabled)];
    }

    /** `handleLedCommand`: the panel changes at once, then the command is
        handed over whatever its outcome; an unknown type does neither. */
    method HandleLedCommand(cmd: LedCommand, isoNow: string)
      modifies this`ledStates, this`requested
      ensures cmd.UnknownCommand? ==> ledStates == old(ledStates) && requested == old(requested)
      ensures !cmd.UnknownCommand? ==> requested == old(requested) + [CommandMessage(cmd, isoNow).value]
      ensures cmd.Control? ==> ledStates == old(ledStates).(manualMode := cmd.mode == JStr("manual"))
      ensures cmd.Individual? && cmd.action == JStr("toggle") ==>
        ledStates == old(ledStates).(leds := ToggleLed(old(ledStates).leds, cmd.led))
      ensures cmd.Individual? && cmd.action != JStr("toggle") ==> ledStates == old(ledStates)
      ensures cmd.Pattern? ==> ledStates == old(ledStates).(leds := PatternLeds(cmd.pattern, old(ledStates).leds))
      ensures cmd.BuzzerCommand? ==> ledStates == old(ledStates).(buzzer := Truthy(cmd.state))
    {
      match cmd {
        case Control(mode) =>
          ledStates := ledStates.(manualMode := mode == JStr("manual"));
        case Individual(led, action) =>
          if action == JStr("toggle") {
            ledStates := ledStates.(leds := ToggleLed(ledStates.leds, led));
          }
        case Pattern(pattern) =>
          ledStates := ledStates.(leds := PatternLeds(pattern, ledStates.leds));
        case BuzzerCommand(state) =>
          ledStates := ledStates.(buzzer := Truthy(state));
        case UnknownCommand =>
          return;
      }
      requested := requested + [CommandMessage(cmd, isoNow).value];
    }

    /** `handleToggleFan`: the opposite state is requested, and kept only when
        `publishCommand` reports success (`ok`). */
    method HandleToggleFan(isoNow: string, ok: bool)
      modifies this`sensorStates, this`requested
      ensures requested == old(requested) + [(FanTopic, Stamped(map["enabled" := JBool(!IsOn(old(sensorStates), "fan"))], isoNow))]
      ensures ok ==> sensorStates == old(sensorStates)["fan" := !IsOn(old(sensorStates), "fan")]
      ensures !ok ==> sensorStates == old(sensorStates)
    {
      var newState := !IsOn(sensorStates, "fan");
      requested := requested + [(FanTopic, Stamped(map["enabled" := JBool(newState)], isoNow))];
      if ok {
        sensorStates := sensorStates["fan" := newState];
      }
    }

    /** `handleTogglePower`: the opposite state is requested on every topic
        of the card (`outcomes` are what `publishCommand` answers, in order);
        the card flips when all succeed, and otherwise is set back to the
        state it had. */
    method HandleTogglePower(id: string, isoNow: string, outcomes: seq<bool>)
      requires |outcomes| == |PowerTopics(id)|
      modifies this`sensorStates, this`requested
      ensures requested == old(requested) + PowerMessages(PowerTopics(id), !IsOn(old(sensorStates), id), isoNow)
      ensures (forall i :: 0 <= i < |outcomes| ==> outcomes[i]) ==>
        sensorStates == old(sensorStates)[id := !IsOn(old(sensorStates), id)]
      ensures (exists i :: 0 <= i < |outcomes| && !outcomes[i]) ==>
        sensorStates == old(sensorStates)[id := IsOn(old(sensorStates), id)]
    {
      var newState := !IsOn(sensorStates, id);
      var topics := PowerTopics(id);
      var allOk := true;
      var i := 0;
      while i < |topics|
        invariant 0 <= i <= |topics|
        invariant allOk <==> forall j :: 0 <= j < i ==> outcomes[j]
        invariant requested == old(requested) + PowerMessages(topics[..i], newState, isoNow)
        invariant sensorStates == old(sensorStates)
      {
        assert topics[..i + 1][..i] == topics[..i];
        requested := requested + [(topics[i], Stamped(map["enabled" := JBool(newState)], isoNow))];
        if !outcomes[i] {
          allOk := false;
        }
        i := i + 1;
      }
      assert topics[..i] == topics;
      sensorStates := sensorStates[id := if allOk then newState else !newState];
    }
  }

  /** A failed power toggle leaves every card reading as before. */
  lemma FailedToggleKeepsState(states: map<string, bool>, id: string, k: string)
    ensures IsOn(states[id := IsOn(states, id)], k) == IsOn(states, k)
  {
  }
}
