/**
 * The back end's sensor manager: the table of enabled sensors, the switch
 * that changes it, and the gating of a full read by that table. What the
 * devices (or the simulation) return is passed in as `Readings`.
 */
module Sensors {
  import opened Wrappers
  import opened Js
  import opened PyValues

  /** `'testing'` (simulated devices) or `'real'` (GPIO). */
  datatype Mode = Testing | Real

  /** The sensors the table knows. */
  function KnownSensors(): set<string> {
    {"temperature", "humidity", "distance", "light", "air_quality"}
  }

  /** The table a new manager starts with: every known sensor enabled. */
  function InitialTable(): (t: map<string, Json>)
    ensures t.Keys == KnownSensors()
    ensures forall k :: k in t ==> t[k] == JBool(true)
  {
    map["temperature" := JBool(true), "humidity" := JBool(true), "distance" := JBool(true),
        "light" := JBool(true), "air_quality" := JBool(true)]
  }

  /** `is_sensor_enabled` on a table: the stored flag, `False` for a sensor
      the table does not know. The flag is whatever the command carried. */
  function Flag(table: map<string, Json>, sensorType: string): (r: Json)
    ensures sensorType !in table ==> r == JBool(false)
    ensures sensorType in table ==> r == table[sensorType]
  {
    Get(table, sensorType, JBool(false))
  }

  /** Whether a read includes a sensor: the flag is truthy. */
  predicate On(table: map<string, Json>, sensorType: string) {
    PyTruthy(Flag(table, sensorType))
  }

  /** What the devices return when they are read: the DHT11 may fail on
      either value (`None`). */
  datatype Readings = Readings(temperature: Option<real>, humidity: Option<real>,
                               distance: real, light: bool, airBad: bool)

  /** The devices a read can touch. */
  datatype Device = Dht | Ultrasonic | Ldr | Mq135

  /** A DHT11 value as stored in the reading: `None` becomes `null`. */
  function OptionalNumber(x: Option<real>): Json {
    if x.Some? then JNum(x.value) else JNull
  }

  class SensorManager {
    const mode: Mode
    var sensorsEnabled: map<string, Json>
    /** The level of the buzzer pin; only real mode drives it. */
    var buzzerPin: bool

    /** The table keeps exactly the known sensors. */
    predicate Valid()
      reads this
    {
      sensorsEnabled.Keys == KnownSensors()
    }

    constructor (mode: Mode)
      ensures this.mode == mode
      ensures sensorsEnabled == InitialTable() && Valid()
      ensures !buzzerPin
    {
      this.mode := mode;
      sensorsEnabled := InitialTable();
      buzzerPin := false;
    }

    /** `is_sensor_enabled`. */
    function IsSensorEnabled(sensorType: string): (r: Json)
      reads this
      ensures Valid() && sensorType !in KnownSensors() ==> r == JBool(false)
    {
      Flag(sensorsEnabled, sensorType)
    }

    /** `get_sensor_status`: a copy of the table. Maps are values here, so
        the caller can change its copy without reaching the manager. */
    method GetSensorStatus() returns (status: map<string, Json>)
      ensures status == sensorsEnabled
      ensures Valid() ==> status.Keys == KnownSensors()
    {
      status := sensorsEnabled;
    }

    /** `enable_sensor`: a known sensor takes the flag and the call
        succeeds; any other name fails and changes nothing. */
    method EnableSensor(sensorType: string, enabled: Json) returns (ok: bool)
      requires Valid()
      modifies this`sensorsEnabled
      ensures Valid()
      ensures ok <==> sensorType in KnownSensors()
      ensures ok ==> IsSensorEnabled(sensorType) == enabled
      ensures forall t :: t != sensorType ==> IsSensorEnabled(t) == old(IsSensorEnabled(t))
      ensures !ok ==> sensorsEnabled == old(sensorsEnabled)
    {
      if sensorType in sensorsEnabled {
        sensorsEnabled := sensorsEnabled[sensorType := enabled];
        ok := true;
      } else {
        ok := false;
      }
    }

    /** `control_buzzer`: real mode drives the pin high for a truthy state
        and low otherwise; the simulation does nothing. */
    method ControlBuzzer(state: Json)
      modifies this`buzzerPin
      ensures buzzerPin == if mode == Real then PyTruthy(state) else old(buzzerPin)
    {
      if mode == Real {
        buzzerPin := PyTruthy(state);
      }
    }

    /** `read_all_sensors`: the reading always carries the clock; each value
        is present exactly when its sensor is enabled, and a device is read
        only when one of its sensors is. */
    method ReadAllSensors(now: real, hw: Readings) returns (data: map<string, Json>, read: set<Device>)
      ensures "timestamp" in data && data["timestamp"] == JNum(now)
      ensures ("temperature" in data <==> On(sensorsEnabled, "temperature"))
        && ("temperature" in data ==> data["temperature"] == OptionalNumber(hw.temperature))
      ensures ("humidity" in data <==> On(sensorsEnabled, "humidity"))
        && ("humidity" in data ==> data["humidity"] == OptionalNumber(hw.humidity))
      ensures ("distance" in data <==> On(sensorsEnabled, "distance"))
        && ("distance" in data ==> data["distance"] == JNum(hw.distance))
      ensures ("light" in data <==> On(sensorsEnabled, "light"))
        && ("light" in data ==> data["light"] == JBool(hw.light))
      ensures ("air_quality_bad" in data <==> On(sensorsEnabled, "air_quality"))
        && ("air_quality_bad" in data ==> data["air_quality_bad"] == JBool(hw.airBad))
      ensures data.Keys <= {"timestamp", "temperature", "humidity", "distance", "light", "air_quality_bad"}
      ensures Dht in read <==> On(sensorsEnabled, "temperature") || On(sensorsEnabled, "humidity")
      ensures Ultrasonic in read <==> On(sensorsEnabled, "distance")
      ensures Ldr in read <==> On(sensorsEnabled, "light")
      ensures Mq135 in read <==> On(sensorsEnabled, "air_quality")
    {
      data := map["timestamp" := JNum(now)];
      read := {};
      if On(sensorsEnabled, "temperature") || On(sensorsEnabled, "humidity") {
        read := read + {Dht};
        if On(sensorsEnabled, "temperature") {
          data := data["temperature" := OptionalNumber(hw.temperature)];
        }
        if On(sensorsEnabled, "humidity") {
          data := data["humidity" := OptionalNumber(hw.humidity)];
        }
      }
      if On(sensorsEnabled, "distance") {
        read := read + {Ultrasonic};
        data := data["distance" := JNum(hw.distance)];
      }
      if On(sensorsEnabled, "light") {
        read := read + {Ldr};
        data := data["light" := JBool(hw.light)];
      }
      if On(sensorsEnabled, "air_quality") {
        read := read + {Mq135};
        data := data["air_quality_bad" := JBool(hw.airBad)];
      }
    }
  }

  /** A manager fresh from its constructor reads every sensor. */
  lemma InitiallyAllOn(t: string)
    requires t in KnownSensors()
    ensures On(InitialTable(), t)
  {
  }
}
