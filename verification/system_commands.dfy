/**
 * The back end's MQTT command handler: the topic decides whether the
 * command drives the buzzer, shuts the system down, or switches a sensor,
 * and a successful switch is confirmed on the sensor's status topic.
 */
module SystemCommands {
  import opened Wrappers
  import opened Text
  import opened Js
  import opened PyValues
  import opened Sensors
  import opened Display

  const BuzzerTopic := "siepa/commands/buzzer"
  const SystemTopic := "siepa/commands/system"
  const SensorsPrefix := "siepa/commands/sensors/"
  const StatusPrefix := "siepa/status/sensors/"

  /** What a command asks for. */
  datatype Command =
    | Buzzer(state: Json)
    | Shutdown
    | Enable(sensor: string, enabled: Json)
    | NoCommand

  /** The dispatch of `_handle_mqtt_command`. On the general enable topic
      the sensor comes from the payload and a missing or empty one does
      nothing; on any other sensor topic it is the topic's last segment.
      `enabled` defaults to true, the buzzer state to false. A name that is
      not a text is never a known sensor, so it is dispatched as nothing. */
  function Dispatch(topic: string, payload: map<string, Json>): (c: Command)
    ensures c.Buzzer? <==> topic == BuzzerTopic
    ensures c.Buzzer? ==> c.state == Get(payload, "state", JBool(false))
    ensures c.Shutdown? <==> topic == SystemTopic && "command" in payload && payload["command"] == JStr("shutdown")
    ensures c.Enable? ==> StartsWith(topic, SensorsPrefix) && c.enabled == Get(payload, "enabled", JBool(true))
  {
    if topic == BuzzerTopic then Buzzer(Get(payload, "state", JBool(false)))
    else if topic == SystemTopic then
      (if Get(payload, "command", JNull) == JStr("shutdown") then Shutdown else NoCommand)
    else if StartsWith(topic, SensorsPrefix) then
      var segment := LastSegment(topic, '/');
      var enabled := Get(payload, "enabled", JBool(true));
      if segment == "enable" then
        var name := Get(payload, "sensor", JNull);
        if PyTruthy(name) && name.JStr? then Enable(name.s, enabled) else NoCommand
      else Enable(segment, enabled)
    else NoCommand
  }

  /** The confirmation published after a successful switch. */
  function Confirmation(sensor: string, enabled: Json, now: real): (string, Json) {
    (StatusPrefix + sensor, JObj(map["sensor" := JStr(sensor), "enabled" := enabled, "timestamp" := JNum(now)]))
  }

  /** A topic below the sensor prefix names the sensor it switches, with the
      payload's `enabled` or true. */
  lemma PerSensorTopic(t: string, payload: map<string, Json>)
    requires '/' !in t && t != "enable"
    ensures Dispatch(SensorsPrefix + t, payload) == Enable(t, Get(payload, "enabled", JBool(true)))
  {
    var topic := SensorsPrefix + t;
    assert topic == "siepa/commands/sensors" + ['/'] + t;
    LastSegmentAfter("siepa/commands/sensors", t, '/');
    assert topic[..|SensorsPrefix|] == SensorsPrefix;
    assert topic != BuzzerTopic && topic != SystemTopic by {
      assert topic[15] == 's';
    }
  }

  /** The general enable topic switches the sensor the payload names, and
      does nothing when the payload names none. */
  lemma EnableTopic(payload: map<string, Json>)
    ensures var c := Dispatch(SensorsPrefix + "enable", payload);
      && ("sensor" !in payload || !PyTruthy(payload["sensor"]) ==> c == NoCommand)
      && ("sensor" in payload && payload["sensor"].JStr? && payload["sensor"].s != "" ==>
            c == Enable(payload["sensor"].s, Get(payload, "enabled", JBool(true))))
  {
    var topic := SensorsPrefix + "enable";
    assert topic == "siepa/commands/sensors" + ['/'] + "enable";
    LastSegmentAfter("siepa/commands/sensors", "enable", '/');
    assert topic[..|SensorsPrefix|] == SensorsPrefix;
    assert topic != BuzzerTopic && topic != SystemTopic by {
      assert topic[15] == 's';
    }
  }

  /** Topics that are neither the buzzer, the system nor below the sensor
      prefix have no effect. */
  lemma OtherTopicsIgnored(topic: string, payload: map<string, Json>)
    requires topic != BuzzerTopic && topic != SystemTopic && !StartsWith(topic, SensorsPrefix)
    ensures Dispatch(topic, payload) == NoCommand
  {
  }

  /** The running system: its sensor manager, its display, and what it
      published on MQTT (`hasMqtt` is whether an MQTT manager exists). */
  class SiepaSystem {
    const sensors: SensorManager
    const display: DisplayManager
    const hasMqtt: bool
    var running: bool
    /** Set by `sys.exit(0)` at the end of a shutdown. */
    var exited: bool
    var published: seq<(string, Json)>

    predicate Valid()
      reads this, sensors
    {
      sensors.Valid() && display.Valid()
    }

    constructor (mode: Mode, hasMqtt: bool)
      ensures Valid() && fresh(sensors) && fresh(display) && fresh(display.lcd)
      ensures this.hasMqtt == hasMqtt && !running && !exited && published == []
      ensures sensors.mode == mode && sensors.sensorsEnabled == InitialTable()
    {
      sensors := new SensorManager(mode);
      display := new DisplayManager();
      this.hasMqtt := hasMqtt;
      running := false;
      exited := false;
      published := [];
    }

    /** `_shutdown`: the loop stops, the display shows the shutdown screen
        and the process exits. */
    method Shutdown()
      requires Valid()
      modifies this`running, this`exited, display.lcd
      ensures !running && exited
      ensures display.lcd.content == ["Sistema apagado", "", "", ""]
    {
      running := false;
      display.DisplayShutdown();
      exited := true;
    }

    /** `_handle_mqtt_command`, with the clock reading `now`. */
    method HandleMqttCommand(topic: string, payload: map<string, Json>, now: real)
      requires Valid()
      modifies this`running, this`exited, this`published, sensors, display.lcd
      ensures Valid()
      ensures var c := Dispatch(topic, payload);
        && (c.Buzzer? ==> sensors.buzzerPin == (if sensors.mode == Real then PyTruthy(c.state) else old(sensors.buzzerPin)))
        && (!c.Buzzer? ==> sensors.buzzerPin == old(sensors.buzzerPin))
        && (c.Shutdown? ==> !running && exited && display.lcd.content == ["Sistema apagado", "", "", ""])
        && (!c.Shutdown? ==> running == old(running) && exited == old(exited) && unchanged(display.lcd))
        && (c.Enable? ==>
              && (c.sensor in KnownSensors() ==> sensors.IsSensorEnabled(c.sensor) == c.enabled)
              && (forall t :: t != c.sensor ==> sensors.IsSensorEnabled(t) == old(sensors.IsSensorEnabled(t)))
              && published == old(published) +
                   (if c.sensor in KnownSensors() && hasMqtt then [Confirmation(c.sensor, c.enabled, now)] else []))
        && (!c.Enable? ==> sensors.sensorsEnabled == old(sensors.sensorsEnabled) && published == old(published))
    {
      var c := Dispatch(topic, payload);
      if c.Buzzer? {
        sensors.ControlBuzzer(c.state);
      } else if c.Shutdown? {
        Shutdown();
      } else if c.Enable? {
        var ok := sensors.EnableSensor(c.sensor, c.enabled);
        if ok && hasMqtt {
          published := published + [Confirmation(c.sensor, c.enabled, now)];
        }
      }
    }
  }
}
