/**
 * The front end's system store: one mutable object whose actions replace
 * the readings, the history buffers, the chart series, the alerts and the
 * status. The clock (`now`), the random part of alert ids and the text of
 * alert messages are parameters; calls the source defers with a zero
 * timeout run here right after the state update that scheduled them.
 */
module SystemStore {
  import opened Wrappers
  import opened Text
  import opened Js
  import opened Sorting
  import opened StoreModel

  class Store {
    var status: Status
    var alerts: seq<Alert>
    var sensorData: seq<Reading>
    var sensorHistory: map<string, seq<HistoryPoint>>
    /** The keys of `sensorHistory` in the order they were first added. */
    var historyOrder: seq<string>
    var chartData: map<string, Series>
    var thresholds: map<string, Threshold>

    /** The bounds every action keeps, and the status derived from the alerts. */
    ghost predicate Valid()
      reads this
    {
      && |alerts| <= MaxAlerts
      && |sensorData| <= MaxReadings
      && (forall k :: k in sensorHistory ==> |sensorHistory[k]| <= MaxHistory)
      && (forall k :: k in sensorHistory <==> k in historyOrder)
      && (forall i, j :: 0 <= i < j < |historyOrder| ==> historyOrder[i] != historyOrder[j])
      && ChartOk(chartData)
      && status.activeAlerts == ActiveCount(alerts)
      && status.systemMode == ModeOf(alerts)
    }

    constructor ()
      ensures Valid()
      ensures status == InitialStatus() && alerts == [] && sensorData == []
      ensures sensorHistory == map[] && historyOrder == [] && chartData == map[]
      ensures thresholds == DefaultThresholds()
    {
      status := InitialStatus();
      alerts := [];
      sensorData := [];
      sensorHistory := map[];
      historyOrder := [];
      chartData := map[];
      thresholds := DefaultThresholds();
    }

    /** `updateConnectionStatus`: a connection also counts as a sync. */
    method UpdateConnectionStatus(isConnected: bool, mqttStatus: string, now: int)
      requires Valid()
      modifies this`status
      ensures Valid()
      ensures status == old(status).(isConnected := isConnected, mqttStatus := mqttStatus,
        lastSync := if isConnected then Some(now) else old(status).lastSync)
    {
      status := status.(isConnected := isConnected, mqttStatus := mqttStatus,
        lastSync := if isConnected then Some(now) else status.lastSync);
    }

    /** `setSyncStatus`: starting a sync records its time. */
    method SetSyncStatus(isSyncing: bool, now: int)
      requires Valid()
      modifies this`status
      ensures Valid()
      ensures status == old(status).(isSyncing := isSyncing,
        lastSync := if isSyncing then Some(now) else old(status).lastSync)
    {
      status := status.(isSyncing := isSyncing, lastSync := if isSyncing then Some(now) else status.lastSync);
    }

    /** `addAlert`: the new alert goes first, unacknowledged, and the list is
        cut to 20; the active count and the mode are recomputed. */
    method AddAlert(kind: AlertType, sensor: string, message: string, value: real,
                    threshold: real, id: string, now: int)
      requires Valid()
      modifies this`alerts, this`status
      ensures Valid()
      ensures alerts == PushAlert(old(alerts), Alert(id, kind, sensor, message, value, threshold, now, false))
      ensures status == old(status).(activeAlerts := ActiveCount(alerts), systemMode := ModeOf(alerts))
    {
      var newAlert := Alert(id, kind, sensor, message, value, threshold, now, false);
      alerts := Take([newAlert] + alerts, MaxAlerts);
      status := status.(activeAlerts := ActiveCount(alerts), systemMode := ModeOf(alerts));
    }

    /** `acknowledgeAlert`: the alerts with this id become acknowledged and the
        status is recomputed. */
    method AcknowledgeAlert(id: string)
      requires Valid()
      modifies this`alerts, this`status
      ensures Valid()
      ensures alerts == Acknowledge(old(alerts), id)
      ensures status == old(status).(activeAlerts := ActiveCount(alerts), systemMode := ModeOf(alerts))
    {
      alerts := Acknowledge(alerts, id);
      status := status.(activeAlerts := ActiveCount(alerts), systemMode := ModeOf(alerts));
    }

    /** `clearAcknowledgedAlerts`: the status is not touched, and stays right. */
    method ClearAcknowledgedAlerts()
      requires Valid()
      modifies this`alerts
      ensures Valid()
      ensures alerts == Unacknowledged(old(alerts))
    {
      UnacknowledgedKeepsStatus(alerts);
      alerts := Unacknowledged(alerts);
    }

    /** `clearAllAlerts`: no alerts, nothing active, normal mode. */
    method ClearAllAlerts()
      requires Valid()
      modifies this`alerts, this`status
      ensures Valid()
      ensures alerts == [] && status == old(status).(activeAlerts := 0, systemMode := ModeNormal)
    {
      alerts := [];
      status := status.(activeAlerts := 0, systemMode := ModeNormal);
    }

    /** `evaluateRisk`: at most one new alert, as `RiskVerdict` decides. */
    method EvaluateRisk(sensorType: string, value: real, now: int, id: string, message: string)
      requires Valid()
      modifies this`alerts, this`status
      ensures Valid()
      ensures alerts == AlertsAfterRisk(thresholds, old(alerts), sensorType, value, now, id, message)
      ensures status == old(status).(activeAlerts := ActiveCount(alerts), systemMode := ModeOf(alerts))
    {
      if sensorType !in thresholds {
        return;
      }
      var t := thresholds[sensorType];
      if RecentlyAlerted(alerts, sensorType, now) {
        return;
      }
      if Below(t.min, value) || Above(t.max, value) {
        AddAlert(Danger, sensorType, message, value,
                 if Below(t.min, value) then t.min.value else t.max.value, id, now);
      } else if Below(t.warningMin, value) || Above(t.warningMax, value) {
        AddAlert(Warning, sensorType, message, value,
                 if Below(t.warningMin, value) then t.warningMin.value else t.warningMax.value, id, now);
      }
    }

    /** `updateThreshold`: replaces one sensor's bounds. */
    method UpdateThreshold(sensorType: string, threshold: Threshold)
      requires Valid()
      modifies this`thresholds
      ensures Valid()
      ensures thresholds == old(thresholds)[sensorType := threshold]
    {
      thresholds := thresholds[sensorType := threshold];
    }

    /** `checkSystemActivity`: active iff data arrived within the last 30 s. */
    method CheckSystemActivity(now: int)
      requires Valid()
      modifies this`status
      ensures Valid()
      ensures status == old(status).(isSystemActive := IsActive(old(status).lastDataReceived, now))
    {
      var lastData := status.lastDataReceived;
      var isActive := lastData.Some? && now - lastData.value < ActivityWindow;
      status := status.(isSystemActive := isActive);
    }

    /** `addChartData`, as `ChartAfter` describes it. */
    method AddChartData(sensorType: string, value: Option<Json>, unit: string,
                        timestamp: Option<int>, now: int)
      requires Valid()
      modifies this`chartData
      ensures Valid()
      ensures chartData == ChartAfter(old(chartData), sensorType, value, unit, timestamp, now)
    {
      var numeric := ChartValue(value);
      if sensorType == "" || numeric.None? {
        return;
      }
      var x := if timestamp.Some? then timestamp.value else now;
      var current := SeriesFor(chartData, sensorType, unit);
      var p := Point(x, Round2(numeric.value));
      if NearDuplicate(current.data, p) {
        return;
      }
      var updated := chartData[sensorType := WithPoint(current, p)];
      assert updated == ChartAfter(chartData, sensorType, value, unit, timestamp, now);
      chartData := updated;
    }

    /** `clearChartData`, as `ChartCleared` describes it. */
    method ClearChartData(sensorType: Option<string>)
      requires Valid()
      modifies this`chartData
      ensures Valid()
      ensures chartData == ChartCleared(old(chartData), sensorType)
    {
      if sensorType.Some? && sensorType.value != "" {
        chartData := chartData - {sensorType.value};
      } else {
        chartData := map[];
      }
    }

    method ClearSensorData()
      requires Valid()
      modifies this`sensorData
      ensures Valid() && sensorData == []
    {
      sensorData := [];
    }

    method ClearHistoryData()
      requires Valid()
      modifies this`sensorHistory, this`historyOrder
      ensures Valid() && sensorHistory == map[] && historyOrder == []
    {
      sensorHistory := map[];
      historyOrder := [];
    }

    /** Record one history point under a sensor, newest first, at most 20. */
    method PushHistoryPoint(key: string, p: HistoryPoint)
      requires Valid()
      modifies this`sensorHistory, this`historyOrder
      ensures Valid()
      ensures sensorHistory == PushHistory(old(sensorHistory), key, p)
      ensures historyOrder == if key in old(sensorHistory) then old(historyOrder) else old(historyOrder) + [key]
    {
      if key !in sensorHistory {
        historyOrder := historyOrder + [key];
      }
      sensorHistory := PushHistory(sensorHistory, key, p);
    }

    /** What `addSensorData` makes of the store, from the state before the call
        (`old`) to the state after it: every field it may change is given. */
    twostate predicate SensorDataAdded(data: Reading, now: int, alertId: string, alertMessage: string)
      reads this
    {
      && (IsDuplicateReading(old(sensorData), data) ==>
        && sensorData == old(sensorData) && sensorHistory == old(sensorHistory)
        && historyOrder == old(historyOrder)
        && chartData == old(chartData) && alerts == old(alerts) && status == old(status))
      && (!IsDuplicateReading(old(sensorData), data) && IsHistorical(data) ==>
        && sensorHistory == old(sensorHistory) && historyOrder == old(historyOrder) && alerts == old(alerts)
        && match HistoricalItems(data.completeData.value)
           case None =>
             sensorData == old(sensorData) && chartData == old(chartData) && status == old(status)
           case Some(items) =>
             var handled := HandledPrefix(items, now);
             && chartData == ChartAfterPoints(old(chartData), items[..handled], now)
             && (handled == |items| ==>
                   sensorData == PushReading(old(sensorData), data) && status == Received(old(status), now))
             && (handled < |items| ==> sensorData == old(sensorData) && status == old(status)))
      && (!IsDuplicateReading(old(sensorData), data) && !IsHistorical(data) ==>
        && sensorData == PushReading(old(sensorData), data)
        && status == Received(old(status), now).(activeAlerts := ActiveCount(alerts), systemMode := ModeOf(alerts))
        && match Measurement(data)
           case None =>
             && sensorHistory == old(sensorHistory) && historyOrder == old(historyOrder)
             && chartData == old(chartData) && alerts == old(alerts)
           case Some(m) =>
             && sensorHistory == PushHistory(old(sensorHistory), m.0, HistoryPoint(data.timestamp, m.1, m.0, data.unidad))
             && historyOrder == (if m.0 in old(sensorHistory) then old(historyOrder) else old(historyOrder) + [m.0])
             && chartData == ChartAfter(old(chartData), m.0, Some(JNum(m.1)), data.unidad, Some(data.timestamp), now)
             && alerts == AlertsAfterRisk(thresholds, old(alerts), m.0, m.1, now, alertId, alertMessage))
    }

    /** `addSensorData`. A reading with the same topic and value as one stored
        less than a second apart changes nothing. Otherwise it is put first
        (at most 100 kept) and the status marks data as received; then
        - a historical batch charts each of its points, in order (a point
          that throws stops the batch and the state update with it);
        - a reading that measures a sensor joins that sensor's history, is
          charted and is checked against the thresholds. */
    method AddSensorData(data: Reading, now: int, alertId: string, alertMessage: string)
      requires Valid()
      modifies this`sensorData, this`sensorHistory, this`historyOrder, this`chartData,
               this`alerts, this`status
      ensures Valid()
      ensures SensorDataAdded(data, now, alertId, alertMessage)
    {
      if IsDuplicateReading(sensorData, data) {
        return;
      }
      if IsHistorical(data) {
        AddHistorical(data, now);
        return;
      }
      sensorData := PushReading(sensorData, data);
      status := Received(status, now);
      var measured := Measurement(data);
      if measured.Some? {
        var (evalType, numericValue) := measured.value;
        PushHistoryPoint(evalType, HistoryPoint(data.timestamp, numericValue, evalType, data.unidad));
        AddChartData(evalType, Some(JNum(numericValue)), data.unidad, Some(data.timestamp), now);
        EvaluateRisk(evalType, numericValue, now, alertId, alertMessage);
      }
    }

    /** The historical branch of `addSensorData`: the batch runs, and the
        reading is stored and marked received only when no point threw. */
    method AddHistorical(data: Reading, now: int)
      requires Valid() && IsHistorical(data)
      modifies this`sensorData, this`chartData, this`status
      ensures Valid()
      ensures match HistoricalItems(data.completeData.value)
        case None =>
          sensorData == old(sensorData) && chartData == old(chartData) && status == old(status)
        case Some(items) =>
          var handled := HandledPrefix(items, now);
          && chartData == ChartAfterPoints(old(chartData), items[..handled], now)
          && (handled == |items| ==>
                sensorData == PushReading(old(sensorData), data) && status == Received(old(status), now))
          && (handled < |items| ==> sensorData == old(sensorData) && status == old(status))
    {
      var items := HistoricalItems(data.completeData.value);
      if items.None? {
        return;
      }
      var handled := RunBatch(items.value, now);
      if handled == |items.value| {
        sensorData := PushReading(sensorData, data);
        status := Received(status, now);
      }
    }

    /** The historical batch: points are looked at in order until one throws,
        and the chart calls scheduled for the points before it then run. */
    method RunBatch(items: seq<Json>, now: int) returns (handled: nat)
      requires Valid()
      modifies this`chartData
      ensures Valid()
      ensures handled == HandledPrefix(items, now)
      ensures chartData == ChartAfterPoints(old(chartData), items[..handled], now)
    {
      handled := 0;
      while handled < |items| && StepOf(items[handled], now) != Throws
        invariant handled <= |items|
        invariant forall i :: 0 <= i < handled ==> StepOf(items[i], now) != Throws
      {
        handled := handled + 1;
      }
      FirstThrow(items, now, handled);
      var j := 0;
      while j < handled
        invariant j <= handled
        invariant Valid()
        invariant chartData == ChartAfterPoints(old(chartData), items[..j], now)
      {
        ChartAfterPointsStep(old(chartData), items, j, now);
        var step := StepOf(items[j], now);
        if step.Chart? {
          AddChartData(step.sensorType, Some(JNum(step.value)), step.unit, Some(step.x), now);
        }
        assert chartData == ChartAfterPoints(old(chartData), items[..j + 1], now);
        j := j + 1;
      }
    }
  }
}
