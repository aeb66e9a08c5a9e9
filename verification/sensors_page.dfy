/**
 * The MQTT sensors page: the latest reading per topic, the complete system
 * snapshot, the sensor switches with their revert on a failed publish, and
 * the colour of the connection chip.
 */
module SensorsPage {
  import opened Wrappers
  import opened Text
  import opened Js
  import opened StoreModel
  import opened Latest
  import MqttHook

  /** The topic the page treats as the system snapshot. */
  const SiepaSensors := "siepa/sensors"
  const CommandPrefix := "siepa/commands/sensors/"

  function TopicKey(r: Reading): Option<string> { Some(r.topic) }

  function Time(r: Reading): int { r.timestamp }

  /** `getLatestByTopic`: the dictionary built by the `forEach`, without the
      snapshot topic. */
  method GetLatestByTopic(data: seq<Reading>) returns (latest: map<string, Reading>)
    ensures latest == LatestBy(data, TopicKey, Time) - {SiepaSensors}
  {
    var all := BuildLatest(data, TopicKey, Time);
    latest := all - {SiepaSensors};
  }

  /** Every topic of the readings but the snapshot topic has an entry, and
      no other key does. */
  lemma LatestByTopicKeys(data: seq<Reading>, t: string)
    ensures t in LatestBy(data, TopicKey, Time) - {SiepaSensors}
      <==> t != SiepaSensors && exists i :: 0 <= i < |data| && data[i].topic == t
  {
    LatestByKeys(data, TopicKey, Time, t);
    if exists i :: 0 <= i < |data| && data[i].topic == t {
      var i :| 0 <= i < |data| && data[i].topic == t;
      assert TopicKey(data[i]) == Some(t);
    }
  }

  /** A topic's entry is a reading on that topic that no reading on the topic
      is later than, and the first such reading. */
  lemma LatestByTopicEntry(data: seq<Reading>, t: string)
    requires t in LatestBy(data, TopicKey, Time) - {SiepaSensors}
    ensures var r := LatestBy(data, TopicKey, Time)[t];
      && r.topic == t
      && (forall i :: 0 <= i < |data| && data[i].topic == t ==> data[i].timestamp <= r.timestamp)
      && exists i :: (0 <= i < |data| && data[i] == r
           && forall j :: 0 <= j < i && data[j].topic == t ==> data[j].timestamp < r.timestamp)
  {
    LatestByEntry(data, TopicKey, Time, t);
    var r := LatestBy(data, TopicKey, Time)[t];
    var i :| 0 <= i < |data| && data[i] == r && TopicKey(data[i]) == Some(t)
      && (forall j :: 0 <= j < i && TopicKey(data[j]) == Some(t) ==> Time(data[j]) < Time(r));
    forall k | 0 <= k < |data| && data[k].topic == t ensures data[k].timestamp <= r.timestamp {
      LatestByMax(data, TopicKey, Time, k);
    }
  }

  /** A reading the page would show as the system snapshot on a given topic:
      on that topic, with a truthy `complete_data`. */
  predicate IsSnapshotOn(r: Reading, topic: string) {
    r.topic == topic && TruthyOpt(r.completeData)
  }

  /** The first snapshot on a topic, if any. */
  function FirstSnapshot(data: seq<Reading>, topic: string): (r: Option<Reading>)
    ensures r.None? <==> forall i :: 0 <= i < |data| ==> !IsSnapshotOn(data[i], topic)
    ensures r.Some? ==> exists i :: (0 <= i < |data| && data[i] == r.value && IsSnapshotOn(r.value, topic)
      && forall j :: 0 <= j < i ==> !IsSnapshotOn(data[j], topic))
  {
    if data == [] then None
    else if IsSnapshotOn(data[0], topic) then Some(data[0])
    else
      var r := FirstSnapshot(data[1..], topic);
      assert r.Some? ==> exists i :: (0 <= i < |data| && data[i] == r.value && IsSnapshotOn(r.value, topic)
        && forall j :: 0 <= j < i ==> !IsSnapshotOn(data[j], topic)) by {
        if r.Some? {
          var i :| 0 <= i < |data[1..]| && data[1..][i] == r.value && IsSnapshotOn(r.value, topic)
            && forall j :: 0 <= j < i ==> !IsSnapshotOn(data[1..][j], topic);
          assert data[i + 1] == r.value;
          forall j | 0 <= j < i + 1 ensures !IsSnapshotOn(data[j], topic) {
            if j > 0 {
              assert data[j] == data[1..][j - 1];
            }
          }
        }
      }
      r
  }

  /** `getCompleteSystemData` as written: the first reading on
      "siepa/sensors" with truthy `complete_data`. */
  function CompleteSystemData(data: seq<Reading>): Option<Reading> {
    FirstSnapshot(data, SiepaSensors)
  }

  /** The hook attaches `complete_data` only to readings of its own complete
      topic, so no message on "siepa/sensors" ever becomes a snapshot. */
  lemma SiepaSensorsNeverSnapshot(parsed: Json, now: int)
    ensures var r := MqttHook.Normalize(SiepaSensors, parsed, now);
      r.None? || r.value.completeData.None?
  {
    assert SiepaSensors != MqttHook.CompleteTopic by {
      assert |SiepaSensors| != |MqttHook.CompleteTopic|;
    }
  }

  /** Hence the page never finds its snapshot among readings that came
      through the hook on its topic, whatever the payloads were. */
  lemma CompleteSystemDataNeverFound(msgs: seq<Json>, now: int)
    ensures var data := seq(|msgs|, i requires 0 <= i < |msgs| =>
      MqttHook.Normalize(SiepaSensors, msgs[i], now).GetOr(
        Reading(SiepaSensors, None, "", now, None, None, None, None)));
      CompleteSystemData(data).None?
  {
    var data := seq(|msgs|, i requires 0 <= i < |msgs| =>
      MqttHook.Normalize(SiepaSensors, msgs[i], now).GetOr(
        Reading(SiepaSensors, None, "", now, None, None, None, None)));
    forall i | 0 <= i < |data| ensures !IsSnapshotOn(data[i], SiepaSensors) {
      SiepaSensorsNeverSnapshot(msgs[i], now);
    }
  }

  /** The snapshot as the hook produces it: the first reading of the
      complete topic with truthy `complete_data`. */
  function SystemSnapshot(data: seq<Reading>): Option<Reading> {
    FirstSnapshot(data, MqttHook.CompleteTopic)
  }

  /** A full-system object on the complete topic is found as the snapshot
      when it is the newest reading, and carries the object it came with. */
  lemma SnapshotFound(parsed: Json, now: int, rest: seq<Reading>)
    requires parsed.JObj?
    ensures var r := MqttHook.Normalize(MqttHook.CompleteTopic, parsed, now);
      r.Some? && SystemSnapshot([r.value] + rest) == r && r.value.completeData == Some(parsed)
  {
  }

  /** The colour of the connection chip. */
  datatype ChipColor = ChipSuccess | ChipPrimary | ChipWarning | ChipDefault | ChipDanger

  function GetChipColor(status: string): (c: ChipColor)
    ensures c == ChipSuccess <==> status == "Conectado y suscrito"
    ensures c == ChipPrimary <==> status == "Conectado"
    ensures c == ChipWarning <==> status == "Reconectando..."
    ensures c == ChipDefault <==> status == "Desconectado" || status == "Offline"
    ensures c == ChipDanger <==>
      status !in {"Conectado y suscrito", "Conectado", "Reconectando...", "Desconectado", "Offline"}
  {
    match status
    case "Conectado y suscrito" => ChipSuccess
    case "Conectado" => ChipPrimary
    case "Reconectando..." => ChipWarning
    case "Desconectado" => ChipDefault
    case "Offline" => ChipDefault
    case _ => ChipDanger
  }

  /** Every error the hook reports shows a red chip. */
  lemma ErrorStatusIsDanger(message: string)
    ensures GetChipColor("Error: " + message) == ChipDanger
  {
    var s := "Error: " + message;
    assert s[0] == 'E';
    assert s != "Conectado y suscrito" && s != "Conectado" && s != "Reconectando..."
      && s != "Desconectado" && s != "Offline" by {
      assert "Conectado y suscrito"[0] == 'C' && "Conectado"[0] == 'C' && "Reconectando..."[0] == 'R'
        && "Desconectado"[0] == 'D' && "Offline"[0] == 'O';
    }
  }

  /** The page's switches and what it handed to `publishCommand`. */
  class Page {
    var sensorStates: map<string, bool>
    var requested: seq<(string, Json)>

    constructor ()
      ensures sensorStates == map["temperature" := true, "humidity" := true, "distance" := true,
                                  "light" := true, "air_quality" := true]
      ensures requested == []
    {
      sensorStates := map["temperature" := true, "humidity" := true, "distance" := true,
                          "light" := true, "air_quality" := true];
      requested := [];
    }

    /** `handleSensorToggle`: the switch takes the new position, the command
        goes to the sensor's command topic, and when `publishCommand` fails
        (`ok` false) the switch is set to the opposite position. */
    method HandleSensorToggle(sensorType: string, enabled: bool, isoNow: string, ok: bool)
      modifies this
      ensures requested == old(requested) + [(CommandPrefix + sensorType,
        JObj(map["enabled" := JBool(enabled), "timestamp" := JStr(isoNow), "source" := JStr("frontend")]))]
      ensures sensorStates == old(sensorStates)[sensorType := if ok then enabled else !enabled]
    {
      sensorStates := sensorStates[sensorType := enabled];
      var payload := JObj(map["enabled" := JBool(enabled), "timestamp" := JStr(isoNow), "source" := JStr("frontend")]);
      requested := requested + [(CommandPrefix + sensorType, payload)];
      if !ok {
        sensorStates := sensorStates[sensorType := !enabled];
      }
    }
  }
}
