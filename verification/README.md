# SIEPA core, modelled in Dafny

SIEPA is an environmental monitoring system. A Raspberry Pi reads a DHT11
(temperature and humidity), an ultrasonic distance sensor, a light sensor
and an MQ135 air-quality sensor. It shows the readings on a 20x4 LCD and
publishes them over MQTT. A Next.js dashboard subscribes to the broker and
keeps the readings in a zustand store, where it:

- evaluates them against warning and danger thresholds;
- raises and acknowledges alerts;
- draws history charts;
- sends commands back (sensor switches, LEDs, buzzer, fan, shutdown).

This project models the core of both halves:

- **Store** (`StoreModel`, `SystemStore`): the front end's state.
  - Sensor readings, history buffers, chart series, alerts and the system
    status, as plain functions (`StoreModel`).
  - The `Store` class whose methods update them (`SystemStore`).
- **History chart store** (`ChartHistory`): the store of the history page.
- **MQTT client** (`MqttHook`, `MqttProvider`).
  - The page hook turns topics and payloads into readings and publishes
    commands.
  - The provider buffers messages, retains the latest 500, measures
    latency and counts reconnect attempts.
- **Pages**:
  - the dashboard: status cards, alerts, LED, fan and power commands
    (`DashboardView`);
  - the alerts page: statistics, search, filter, sort, limit and "time
    ago" (`AlertsView`);
  - the MQTT sensors page (`SensorsPage`);
  - the sidebar (`Sidebar`).
- **Integration script** (`IntegrationCheck`): the payload validator of the
  front-end integration script.
- **Back end**:
  - the sensor manager and its enable table (`Sensors`);
  - the command dispatcher and shutdown (`SystemCommands`);
  - the display manager and its simulated LCD (`Display`);
  - the MQTT subscriber that stores rows and reports threshold alerts
    (`Subscriber`);
  - the DHT11 bit decoder (`Dht11`).
- **Shared modules** state the language rules the code relies on:
  - `Text`: `split`, `startsWith`, `includes`, `toLowerCase`, `filter`,
    `slice`;
  - `Js`: JavaScript truthiness, `parseFloat`, `Number`, `Math.round`,
    `toFixed`;
  - `PyValues`: Python truthiness, `dict.get`, negative indexing;
  - `Sorting`: a stable sort;
  - `Latest`: the "latest entry per key" `forEach`.

How things are represented:

- Time, random alert ids, publish results, ISO date text and hardware pulse
  durations are parameters.
- Timestamps are milliseconds as `int`; numbers are exact `real`s, without binary64 rounding.
- JSON values are the `Js.Json` datatype.
- A stored reading value is a parsed JSON value, or the `JSON.stringify`
  text of an object, kept symbolic.

## Model

| member | source | states |
|---|---|---|
| Text.Split | fase1/frontend/app/mqtt-sensors/useMqtt.ts:120-121 | `split` on one separator gives at least one piece, none of which contains the separator |
| Text.JoinSplit | fase1/frontend/app/mqtt-sensors/useMqtt.ts:120-121 | joining the pieces with the separator gives the text back |
| Text.SplitSingle | fase1/frontend/app/mqtt-sensors/useMqtt.ts:120-121 | a text is one piece exactly when it has no separator |
| Text.LastSegmentIsTail | fase1/frontend/app/mqtt-sensors/useMqtt.ts:369 | the last piece (`pop()`) is the suffix after the last separator, and has no separator |
| Text.SplitAppend | fase1/backend/core/mqtt/subscriber.py:90 | splitting `a + sep + b` is splitting `a` and splitting `b` |
| Text.SplitNone | fase1/backend/core/mqtt/subscriber.py:90 | text without the separator is a single piece |
| Text.LastSegmentAfter | fase1/frontend/app/mqtt-sensors/useMqtt.ts:120-121 | the last segment of `a + sep + b` is `b` when `b` has no separator |
| Text.OccursImpliesIncludes | fase1/frontend/app/dashboard/alerts/page.tsx:58-59 | any occurrence of the query makes `includes` true |
| Text.IncludesIffOccurs | fase1/frontend/app/dashboard/alerts/page.tsx:58-59 | `includes` holds exactly when the query occurs at some position |
| Text.LowerChar | fase1/frontend/app/dashboard/history/useSystemStore.ts:143 | ASCII capitals move down by 32; characters that are neither ASCII nor Latin-1 capitals are unchanged (the part of `toLowerCase` that is modelled) |
| Text.ToLower | fase1/frontend/app/dashboard/alerts/page.tsx:58-59 | each character is lowered by `LowerChar`, and the length is kept |
| Text.Filter | fase1/frontend/app/dashboard/alerts/page.tsx:56-66 | `filter` keeps each passing element exactly as often as it occurs and drops every other one |
| Text.FilterMembers | fase1/frontend/app/dashboard/alerts/page.tsx:56-66 | an element is in the result iff it is in the input and passes |
| Text.FilterAppend | fase1/frontend/app/dashboard/alerts/page.tsx:55-66 | `filter` of a concatenation is the concatenation of the filtered parts, so kept elements stay in order |
| Text.FilterWhen | fase1/frontend/app/dashboard/alerts/page.tsx:55-66 | when on, the passing elements are kept, each as often as it occurs, and the others dropped; when off, everything is kept |
| Text.FilterWhenAppend | fase1/frontend/app/dashboard/alerts/page.tsx:55-66 | the conditional filter also keeps the order of the elements |
| Text.FilterAll | fase1/frontend/lib/store/useSystemStore.ts:841 | a filter that every element passes returns the input |
| Text.Take | fase1/frontend/lib/store/useSystemStore.ts:247 | `slice(0, n)` is the prefix of length `min(n, length)` |
| Text.TakeMultiset | fase1/frontend/app/dashboard/alerts/page.tsx:85-87 | a prefix holds a sub-multiset, and the whole input when `n` is at least its length |
| Text.SliceFrom | fase1/frontend/lib/providers/MqttProvider.tsx:129 | `slice(start)` is a suffix of the input |
| Text.SliceFromNegative | fase1/frontend/app/dashboard/history/useSystemStore.ts:71 | `slice(-n)` keeps the last `min(n, length)` elements |
| Text.PyPrefix | fase1/backend/core/display/display_manager.py:113-116 | Python `text[:k]` is a prefix, of length `min(k, len)` for `k >= 0` |
| Js.Member | fase1/frontend/app/mqtt-sensors/useMqtt.ts:402-405 | a property read is defined exactly for an object that has the key |
| Js.TrimStart | fase1/frontend/lib/store/useSystemStore.ts:503 | `parseFloat` skips leading white space (ECMAScript's WhiteSpace and LineTerminator, the Zs separators included): the result is a suffix that does not start with a space |
| Js.LeadingDigits | fase1/frontend/lib/store/useSystemStore.ts:503 | the run of leading digits is maximal |
| Js.DigitRun | fase1/frontend/lib/store/useSystemStore.ts:503 | the leading digit run is all digits and a prefix of the text |
| Js.ScanLiteral | fase1/frontend/lib/store/useSystemStore.ts:503 | the integer and fraction parts of a scanned literal are digit strings |
| Js.ParseFloatSomeIff | fase1/frontend/lib/store/useSystemStore.ts:503 | `parseFloat` gives a number exactly when the trimmed text starts like a number |
| Js.NatText | fase1/frontend/lib/store/useSystemStore.ts:503 | the decimal text of a natural number is a non-empty digit string |
| Js.DigitsValueNatText | fase1/frontend/lib/store/useSystemStore.ts:503 | reading the digits of a number's text gives the number |
| Js.ParseFloatNatText | fase1/frontend/lib/store/useSystemStore.ts:503 | `parseFloat(String(n)) == n` for every natural number `n` |
| Js.ScanAllDigits | fase1/frontend/lib/store/useSystemStore.ts:503 | a digit string scans as an integer literal with no fraction or exponent |
| Js.Round2 | fase1/frontend/lib/store/useSystemStore.ts:524-527 | on real numbers, `Math.round(v*100)/100` is within 0.005 of `v` |
| Js.Round2Idempotent | fase1/frontend/lib/store/useSystemStore.ts:524-527 | rounding an already rounded value changes nothing |
| Js.Fixed2 | fase1/frontend/app/dashboard/history/useSystemStore.ts:67 | on real numbers, `parseFloat(v.toFixed(2))` is within 0.005 of `v`, and equals `Round2` for non-negative `v` |
| Js.Fixed2Odd | fase1/frontend/app/dashboard/history/useSystemStore.ts:67 | `toFixed` rounds the magnitude, so negating commutes with it |
| Js.SecondsOrMillisAgree | fase1/frontend/lib/store/useSystemStore.ts:250-257 | from 10^9 s (2001) on, one instant sent as whole seconds or as milliseconds gets the same time; a millisecond time below 10^12 is misread as seconds |
| Js.TrimEnd | fase1/frontend/app/dashboard/page.tsx:487-532 | trailing white space (the same ECMAScript set `parseFloat` skips) is removed: the rest is a prefix that does not end in a space, cut only at a space |
| Js.StringToNumberAgrees | fase1/frontend/app/dashboard/page.tsx:487-532 | where `<` and `>` read a number from non-blank text, `parseFloat` reads the same number |
| Js.StringToNumberNatText | fase1/frontend/app/dashboard/page.tsx:487-532 | the decimal text of a natural number compares as that number |
| Js.TrailingTextIsNaN | fase1/frontend/app/dashboard/page.tsx:487-532 | "12abc": `parseFloat` reads 12, while the comparisons see NaN |
| PyValues.Get | fase1/backend/core/mqtt/subscriber.py:97-99 | `dict.get` gives the stored value for a present key and the default otherwise |
| PyValues.PyIndex | fase1/backend/core/display/display_manager.py:113-116 | a list index is valid iff `-n <= i < n`, and a negative one counts from the end |
| Sorting.Insert | fase1/frontend/app/dashboard/alerts/page.tsx:69-83 | insertion adds exactly the one element to the multiset |
| Sorting.SortBy | fase1/frontend/app/dashboard/alerts/page.tsx:69-83 | the sort is a permutation of its input |
| Sorting.InsertSorted | fase1/frontend/app/dashboard/alerts/page.tsx:69-83 | inserting into a sorted list keeps it sorted (strict weak order) |
| Sorting.SortBySorted | fase1/frontend/app/dashboard/alerts/page.tsx:69-83 | the sort result is ordered by the comparator and is a permutation |
| Latest.LatestByKeys | fase1/frontend/app/dashboard/page.tsx:251-261 | the latest-per-key map has a key exactly when some entry has it |
| Latest.LatestByMax | fase1/frontend/app/dashboard/page.tsx:251-261 | no entry with a key is later than the one kept under that key |
| Latest.LatestByEntry | fase1/frontend/app/dashboard/page.tsx:251-261 | the kept entry is in the input, and every earlier entry with the key is strictly older |
| Latest.BuildLatest | fase1/frontend/app/dashboard/page.tsx:251-261 | the `forEach` loop builds exactly the latest-per-key map |
| StoreModel.ActiveCountPositive | fase1/frontend/lib/store/useSystemStore.ts:603-620 | an unacknowledged alert makes the active count at least 1 |
| StoreModel.ModeNeedsActive | fase1/frontend/lib/store/useSystemStore.ts:603-620 | a non-normal mode needs an active alert, and the mode is at least as severe as every active alert |
| StoreModel.PushAlert | fase1/frontend/lib/store/useSystemStore.ts:602 | the new alert goes first and at most 20 are kept, the rest in their old order |
| StoreModel.NewAlertRaisesMode | fase1/frontend/lib/store/useSystemStore.ts:592-631 | adding an unacknowledged alert makes it active and raises the mode to at least its severity |
| StoreModel.Acknowledge | fase1/frontend/lib/store/useSystemStore.ts:634-668 | exactly the alerts with the id become acknowledged; everything else is unchanged |
| StoreModel.AcknowledgeCount | fase1/frontend/lib/store/useSystemStore.ts:634-668 | the active count drops by the number of active alerts with that id |
| StoreModel.AcknowledgeNeverRaisesMode | fase1/frontend/lib/store/useSystemStore.ts:634-668 | acknowledging never raises the mode, and is idempotent |
| StoreModel.Unacknowledged | fase1/frontend/lib/store/useSystemStore.ts:671-676 | exactly the unacknowledged alerts remain |
| StoreModel.UnacknowledgedMultiset | fase1/frontend/lib/store/useSystemStore.ts:671-676 | each unacknowledged alert is kept as often as it occurs, each acknowledged one dropped |
| StoreModel.UnacknowledgedAppend | fase1/frontend/lib/store/useSystemStore.ts:671-676 | clearing keeps the alerts' order: clearing a concatenation clears each part |
| StoreModel.UnacknowledgedKeepsStatus | fase1/frontend/lib/store/useSystemStore.ts:671-676 | clearing acknowledged alerts leaves the active count and the mode unchanged |
| StoreModel.Classify | fase1/frontend/lib/store/useSystemStore.ts:774-806 | danger iff a danger bound is crossed, else warning iff a warning bound is crossed; the reported bound is the one crossed |
| StoreModel.DefaultTemperatureBands | fase1/frontend/lib/store/useSystemStore.ts:120-158 | with the default thresholds, temperature is danger outside [5,40], warning in [5,10) and (35,40], normal in [10,35] |
| StoreModel.DefaultPressureBands | fase1/frontend/lib/store/useSystemStore.ts:120-158 | default pressure bands: danger outside [1000,1030], warning in [1000,1005) and (1025,1030], normal in [1005,1025] |
| StoreModel.RiskVerdict | fase1/frontend/lib/store/useSystemStore.ts:690-706 | there is no verdict without a threshold or within 30000 ms of an alert on the sensor; otherwise it is the classification |
| StoreModel.AlertsAfterRisk | fase1/frontend/lib/store/useSystemStore.ts:690-807 | an alert is pushed exactly when there is a verdict, and the mode reaches its severity |
| StoreModel.RiskSuppressedAfterAlert | fase1/frontend/lib/store/useSystemStore.ts:699-706 | right after an alert for a sensor, its next evaluation raises nothing |
| StoreModel.DisplayName | fase1/frontend/lib/store/useSystemStore.ts:861-872 | unknown sensor types keep their name; "pressure" shows as "Presión" |
| StoreModel.EarlierXOrder | fase1/frontend/lib/store/useSystemStore.ts:552 | ordering chart points by time is a strict weak order |
| StoreModel.SeriesFor | fase1/frontend/lib/store/useSystemStore.ts:516-521 | an existing series is reused; otherwise a new one is named after the key |
| StoreModel.WithPoint | fase1/frontend/lib/store/useSystemStore.ts:548-553 | after adding a point the series is sorted by time, has `min(old length + 1, 100)` points, all drawn from the old points plus the new one, and keeps its name, unit and colour |
| StoreModel.WithPointKeepsAll | fase1/frontend/lib/store/useSystemStore.ts:548-553 | below 100 points nothing is lost: the series holds every old point and the new one |
| StoreModel.WithPointDropsOldest | fase1/frontend/lib/store/useSystemStore.ts:548-553 | at the cap, a point that is dropped is no later than any point that is kept |
| StoreModel.DroppedNotLater | fase1/frontend/lib/store/useSystemStore.ts:553 | `slice(-n)` of a time-sorted list drops only points no later than the first one it keeps |
| StoreModel.ChartAfter | fase1/frontend/lib/store/useSystemStore.ts:488-565 | no change without a key or a numeric value, or when the rounded point is a near-duplicate; otherwise the key's series becomes `WithPoint` of the old series and the point; other keys are untouched; the sorted, bounded chart invariant is preserved |
| StoreModel.ChartOkUpdate | fase1/frontend/lib/store/useSystemStore.ts:548-563 | replacing one series with a sound one keeps the chart sound |
| StoreModel.ChartAfterAdds | fase1/frontend/lib/store/useSystemStore.ts:529-553 | a change means a key, a number and no near-duplicate; the series grows by one up to 100 points, holds every old point and the new one below the cap, drops only the oldest points at it, and keeps its unit |
| StoreModel.SortBySortedIsIdentity | fase1/frontend/lib/store/useSystemStore.ts:552 | a stable sort of a sorted list returns it unchanged |
| StoreModel.SortedInsertion | fase1/frontend/lib/store/useSystemStore.ts:552 | sorting a sorted series with one point appended is inserting that point |
| StoreModel.ChartPoints | fase1/frontend/lib/store/useSystemStore.ts:568-571 | `getChartData` gives the last `maxPoints` points in time order, nothing for an unknown key |
| StoreModel.ChartCleared | fase1/frontend/lib/store/useSystemStore.ts:579-589 | clearing one key removes only that key; no key clears everything |
| StoreModel.PushHistory | fase1/frontend/lib/store/useSystemStore.ts:326-334 | the new point goes first in its sensor's buffer (at most 20); other sensors are unchanged |
| StoreModel.NewerOrder | fase1/frontend/lib/store/useSystemStore.ts:475-477 | newest-first is a strict weak order |
| StoreModel.HistoryData | fase1/frontend/lib/store/useSystemStore.ts:469-478 | with a key, that key's buffer; without one, all points newest first, a permutation of every buffer |
| StoreModel.PushReading | fase1/frontend/lib/store/useSystemStore.ts:247 | the reading goes first and at most 100 are kept |
| StoreModel.EvalTypesHaveThresholds | fase1/frontend/lib/store/useSystemStore.ts:351-432 | every sensor name the fallback table maps has a default threshold |
| StoreModel.EvalTypeOf | fase1/frontend/lib/store/useSystemStore.ts:351-432 | the fallback table maps a sensor name only to one of the six evaluated types |
| StoreModel.Measurement | fase1/frontend/lib/store/useSystemStore.ts:304-432 | a reading that is evaluated has a non-empty sensor key |
| StoreModel.StepOf | fase1/frontend/lib/store/useSystemStore.ts:265-290 | a history point that is charted has a non-empty key not starting with "_"; a `null` item throws |
| StoreModel.HandledPrefix | fase1/frontend/lib/store/useSystemStore.ts:265-290 | the batch is handled up to (not including) the first item that throws |
| StoreModel.FirstThrow | fase1/frontend/lib/store/useSystemStore.ts:265-290 | the handled prefix is the unique position of the first throw |
| StoreModel.ChartAfterPoints | fase1/frontend/lib/store/useSystemStore.ts:280-287 | charting a batch of history points preserves the sorted, bounded chart invariant |
| StoreModel.Received | fase1/frontend/lib/store/useSystemStore.ts:434-447 | a reading marks the system syncing, active and last seen now, and changes no other status field |
| StoreModel.ActiveAfterReading | fase1/frontend/lib/store/useSystemStore.ts:819-835 | the system is active for 30 s after a reading and inactive from then on |
| StoreModel.Partialize | fase1/frontend/lib/store/useSystemStore.ts:839-855 | persisted: the thresholds, exactly `Unacknowledged(alerts)` (so the same count and mode), and the last 20 points of every series |
| StoreModel.RecentPoints | fase1/frontend/lib/store/useSystemStore.ts:847 | a persisted series keeps its last 20 points |
| SystemStore.Store.constructor | fase1/frontend/lib/store/useSystemStore.ts:186-200 | the initial state: default thresholds, empty collections, initial status |
| SystemStore.Store.UpdateConnectionStatus | fase1/frontend/lib/store/useSystemStore.ts:203-213 | sets the connection flag and text; a connection stamps `lastSync` |
| SystemStore.Store.SetSyncStatus | fase1/frontend/lib/store/useSystemStore.ts:215-224 | sets the sync flag; starting a sync stamps `lastSync` |
| SystemStore.Store.AddAlert | fase1/frontend/lib/store/useSystemStore.ts:592-631 | pushes the alert and recomputes the active count and mode from the alerts |
| SystemStore.Store.AcknowledgeAlert | fase1/frontend/lib/store/useSystemStore.ts:634-668 | acknowledges the id and recomputes the count and mode |
| SystemStore.Store.ClearAcknowledgedAlerts | fase1/frontend/lib/store/useSystemStore.ts:671-676 | keeps only the unacknowledged alerts |
| SystemStore.Store.ClearAllAlerts | fase1/frontend/lib/store/useSystemStore.ts:678-687 | no alerts, count 0, normal mode |
| SystemStore.Store.EvaluateRisk | fase1/frontend/lib/store/useSystemStore.ts:690-807 | the alerts become those after the risk rule; count and mode follow |
| SystemStore.Store.UpdateThreshold | fase1/frontend/lib/store/useSystemStore.ts:809-816 | replaces one sensor's threshold |
| SystemStore.Store.CheckSystemActivity | fase1/frontend/lib/store/useSystemStore.ts:819-835 | sets the activity flag from the last reading's age |
| SystemStore.Store.AddChartData | fase1/frontend/lib/store/useSystemStore.ts:488-565 | the chart becomes `ChartAfter` of the old chart, keeping the series invariant |
| SystemStore.Store.ClearChartData | fase1/frontend/lib/store/useSystemStore.ts:579-589 | the chart becomes `ChartCleared` of the old one |
| SystemStore.Store.ClearSensorData | fase1/frontend/lib/store/useSystemStore.ts:462-466 | no readings |
| SystemStore.Store.ClearHistoryData | fase1/frontend/lib/store/useSystemStore.ts:481-485 | no history |
| SystemStore.Store.PushHistoryPoint | fase1/frontend/lib/store/useSystemStore.ts:326-334 | pushes the point into its sensor's buffer; a new sensor is appended to the key order |
| SystemStore.Store.AddSensorData | fase1/frontend/lib/store/useSystemStore.ts:226-460 | a duplicate changes nothing; a history batch is charted up to its first throw; any other reading is stored first, pushed to history and the chart, and evaluated for risk; a sensor heard for the first time is appended to the history key order |
| SystemStore.Store.AddHistorical | fase1/frontend/lib/store/useSystemStore.ts:260-301 | the history batch: the chart takes the points handled before a throw, and only a batch without a throw stores the reading |
| SystemStore.Store.RunBatch | fase1/frontend/lib/store/useSystemStore.ts:265-290 | the loop over history points charts exactly the handled prefix |
| ChartHistory.NewUnit | fase1/frontend/app/dashboard/history/useSystemStore.ts:58-63 | a given unit wins; a new series is left without a unit exactly when none is given and the key has no default |
| ChartHistory.Current | fase1/frontend/app/dashboard/history/useSystemStore.ts:58-63 | an existing series is reused; a new one is empty, named after the key, coloured iff the key has a colour |
| ChartHistory.Reversed | fase1/frontend/app/dashboard/history/useSystemStore.ts:88 | `reverse()` puts element `i` at position `n-1-i` |
| ChartHistory.ChartPoints | fase1/frontend/app/dashboard/history/useSystemStore.ts:86-89 | `getChartData` gives the last `maxPoints` points newest first; nothing for an unknown key |
| ChartHistory.MapSensorType | fase1/frontend/app/dashboard/history/useSystemStore.ts:132-144 | a known name in any case maps to its key; any other name is kept |
| ChartHistory.MapSensorTypeKeys | fase1/frontend/app/dashboard/history/useSystemStore.ts:132-144 | every mapped key has a default unit and colour |
| ChartHistory.Partialize | fase1/frontend/app/dashboard/history/useSystemStore.ts:111-122 | persisting keeps every key and the last 20 points of each series |
| ChartHistory.PartializeBounded | fase1/frontend/app/dashboard/history/useSystemStore.ts:111-122 | persisting a chart within the window changes nothing |
| ChartHistory.ChartStore.constructor | fase1/frontend/app/dashboard/history/useSystemStore.ts:53 | no series |
| ChartHistory.ChartStore.AddChartData | fase1/frontend/app/dashboard/history/useSystemStore.ts:56-83 | the `toFixed(2)` value is appended as the newest point and the last 20 kept; other keys unchanged |
| ChartHistory.ChartStore.ClearChartData | fase1/frontend/app/dashboard/history/useSystemStore.ts:97-107 | removes one key, or every key when none is given |
| ChartHistory.WindowSlides | fase1/frontend/app/dashboard/history/useSystemStore.ts:71 | below the window a point is appended; at the window the oldest point drops out |
| MqttHook.KindOf | fase1/frontend/app/mqtt-sensors/useMqtt.ts:119-238 | only `null` fails; an object naming its own `sensor_type` keeps it and is evaluated by the topic's last segment |
| MqttHook.AliasesAgree | fase1/frontend/app/mqtt-sensors/useMqtt.ts:134-236 | English and Spanish segment names give the same unit, label and evaluation type; buzzer and status are not evaluated |
| MqttHook.UnknownSegment | fase1/frontend/app/mqtt-sensors/useMqtt.ts:231-236 | an unknown last segment gives no unit, label "Sensor" and no evaluation |
| MqttHook.SelectValue | fase1/frontend/app/mqtt-sensors/useMqtt.ts:402-422 | a scalar is stored as is; `valor` wins; an object with no `valor`, `state` or `value` is stored as its JSON text |
| MqttHook.EvalValue | fase1/frontend/app/mqtt-sensors/useMqtt.ts:433-455 | air quality: a boolean is 1/0; a text is 1 iff "malo"/"mala" in any case or "1"; other sensors pass the value through |
| MqttHook.MaloAnyCase | fase1/frontend/app/mqtt-sensors/useMqtt.ts:441-446 | "MALO" evaluates to 1 and "Bueno" to 0 |
| MqttHook.PayloadTime | fase1/frontend/app/mqtt-sensors/useMqtt.ts:408-410 | a truthy `timestamp` that `Number` reads is taken as seconds (times 1000); without one the time is now |
| MqttHook.TextTimestampCoerced | fase1/frontend/app/mqtt-sensors/useMqtt.ts:408-410 | a `timestamp` sent as decimal text is read as seconds, as a number is |
| MqttHook.Normalize | fase1/frontend/app/mqtt-sensors/useMqtt.ts:346-466 | a message fails only for `null` off the complete topic; an object on the complete topic carries it as `complete_data` |
| MqttHook.NormalizeScalar | fase1/frontend/app/mqtt-sensors/useMqtt.ts:402-455 | a scalar becomes a reading with the segment's unit and label, timed now, evaluated by its segment |
| MqttHook.TemperaturaKind | fase1/frontend/app/mqtt-sensors/useMqtt.ts:134-236 | "temperatura" has unit °C, label "Temperatura" and evaluation type temperature |
| MqttHook.NormalizeTemperature | fase1/frontend/app/mqtt-sensors/useMqtt.ts:346-466 | a number on the temperature topic is evaluated as that temperature in °C |
| MqttHook.NormalizeAirAlarm | fase1/frontend/app/mqtt-sensors/useMqtt.ts:433-455 | `true` on the air-quality topic is evaluated as 1 |
| MqttHook.Encode | fase1/frontend/app/mqtt-sensors/useMqtt.ts:88-89 | a text payload goes out as its own text, anything else as that value's JSON |
| MqttHook.Hook.constructor | fase1/frontend/app/mqtt-sensors/useMqtt.ts:38-41 | disconnected, no readings, nothing published |
| MqttHook.Hook.HandleMessage | fase1/frontend/app/mqtt-sensors/useMqtt.ts:346-466 | a non-null message on the status prefix goes to a registered listener, and only such a message is reported; a `null` one there changes nothing; any other message that normalizes becomes a reading put first (at most 50) and added to the store exactly as `AddSensorData` does; one that does not leaves the whole store unchanged |
| MqttHook.Hook.PublishCommand | fase1/frontend/app/mqtt-sensors/useMqtt.ts:55-117 | false without a connected client; a connected client publishes the encoded payload; a client connected while the hook thinks not sets "Conectado" in the hook and the store, and nothing else touches those; a stale "connected" flag asks for a reconnect |
| MqttHook.Hook.RequestHistoricalData | fase1/frontend/app/mqtt-sensors/useMqtt.ts:537-576 | only a connected hook publishes the history request with the sensor, count, time and source |
| MqttProvider.Retain | fase1/frontend/lib/providers/MqttProvider.tsx:122-131 | retention keeps the last 500 messages, all of them when there are fewer |
| MqttProvider.ShownValue | fase1/frontend/lib/providers/MqttProvider.tsx:225-230 | the shown value is a truthy `valor`, else a truthy `value`, else the payload itself |
| MqttProvider.DataQuality | fase1/frontend/lib/providers/MqttProvider.tsx:336-348 | 0 without data, else 10 per distinct topic heard in the last 300000 ms (5 minutes) |
| MqttProvider.FreshMessages | fase1/frontend/lib/providers/MqttProvider.tsx:336-348 | `n` messages on `n` sensor topics, all received now |
| MqttProvider.RecentTopicsSnoc | fase1/frontend/lib/providers/MqttProvider.tsx:340-346 | a new message adds its topic to the recent set iff it is recent |
| MqttProvider.SensorTopicsDiffer | fase1/frontend/lib/providers/MqttProvider.tsx:336-348 | distinct sensor indices give distinct topics |
| MqttProvider.FirstTopicsSize | fase1/frontend/lib/providers/MqttProvider.tsx:336-348 | the first `n` sensor topics are `n` distinct topics |
| MqttProvider.FreshTopics | fase1/frontend/lib/providers/MqttProvider.tsx:336-348 | `n` fresh messages on distinct topics count `n` recent topics |
| MqttProvider.DataQualityExceeds100 | fase1/frontend/lib/providers/MqttProvider.tsx:336-348 | eleven fresh sensor topics give a "percentage" of 110 |
| MqttProvider.CappedDataQuality | fase1/frontend/lib/providers/MqttProvider.tsx:336-348 | the corrected figure lies in [0,100] and equals the original whenever that is a true share |
| MqttProvider.Provider.constructor | fase1/frontend/lib/providers/MqttProvider.tsx:102-113 | empty buffers, no attempts, a new client connecting |
| MqttProvider.Provider.Flush | fase1/frontend/lib/providers/MqttProvider.tsx:134-154 | an empty buffer changes nothing; otherwise the buffer follows the shown messages (retained) and is emptied |
| MqttProvider.Provider.Tick | fase1/frontend/lib/providers/MqttProvider.tsx:157-166 | flushes only when more than 100 ms passed since the last flush |
| MqttProvider.Provider.CleanupOldData | fase1/frontend/lib/providers/MqttProvider.tsx:122-131 | applies the retention rule |
| MqttProvider.Provider.HandleMessage | fase1/frontend/lib/providers/MqttProvider.tsx:213-242 | non-JSON and `null` are dropped; a pong sets the latency; any other message is buffered, and a full buffer is flushed |
| MqttProvider.Provider.OnConnect | fase1/frontend/lib/providers/MqttProvider.tsx:187-211 | connected, counter reset, ping timed from now, and exactly `{"timestamp": now}` published on "GRUPO2/ping/rasp01" |
| MqttProvider.Provider.OnError | fase1/frontend/lib/providers/MqttProvider.tsx:256-269 | an error counts an attempt and shows its message; the tenth ends the client |
| MqttProvider.Provider.OnDisconnect | fase1/frontend/lib/providers/MqttProvider.tsx:244-254 | disconnected, with the offline or disconnected text; going offline also clears the client's connected flag, so a later publish fails |
| MqttProvider.Provider.OnReconnect | fase1/frontend/lib/providers/MqttProvider.tsx:271-274 | the status text becomes "Reconectando..." |
| MqttProvider.Provider.Reconnect | fase1/frontend/lib/providers/MqttProvider.tsx:289-296 | the counter is reset and a fresh client starts connecting |
| MqttProvider.Provider.ClearData | fase1/frontend/lib/providers/MqttProvider.tsx:282-287 | no shown or buffered messages, no last-data time |
| MqttProvider.Provider.PublishCommand | fase1/frontend/lib/providers/MqttProvider.tsx:298-320 | only a connected client publishes: text verbatim, anything else as JSON |
| MqttProvider.TenErrorsEndTheClient | fase1/frontend/lib/providers/MqttProvider.tsx:256-269 | ten errors in a row end the client |
| AlertsView.AlertStats | fase1/frontend/app/dashboard/alerts/page.tsx:37-48 | the total is the number of alerts, and the three type counts add up to it |
| AlertsView.StatsAddUp | fase1/frontend/app/dashboard/alerts/page.tsx:37-48 | danger, warning and info partition the alerts |
| AlertsView.Filtered | fase1/frontend/app/dashboard/alerts/page.tsx:55-66 | exactly the alerts that match the search (ignoring case) and the type filter, each as often as in the store; both filters off keep all |
| AlertsView.FilteredAppend | fase1/frontend/app/dashboard/alerts/page.tsx:55-66 | the filters keep the store's order: filtering a concatenation filters each part |
| AlertsView.BeforeOrder | fase1/frontend/app/dashboard/alerts/page.tsx:69-83 | each of the page's comparators is a strict weak order |
| AlertsView.UnknownOrderKeeps | fase1/frontend/app/dashboard/alerts/page.tsx:81-82 | an unknown sort key leaves the order unchanged |
| AlertsView.PageView | fase1/frontend/app/dashboard/alerts/page.tsx:51-90 | the view counts all filtered alerts and shows at most 20 of them |
| AlertsView.PrefixSorted | fase1/frontend/app/dashboard/alerts/page.tsx:85-87 | a prefix of a sorted list is sorted |
| AlertsView.ViewSorted | fase1/frontend/app/dashboard/alerts/page.tsx:69-87 | the shown alerts are in the chosen order |
| AlertsView.ViewContents | fase1/frontend/app/dashboard/alerts/page.tsx:51-90 | the shown alerts come from the filtered ones, and are all of them when at most 20 pass |
| AlertsView.ViewFiltered | fase1/frontend/app/dashboard/alerts/page.tsx:55-66 | every shown alert passes both filters |
| AlertsView.PrefixComesFirst | fase1/frontend/app/dashboard/alerts/page.tsx:85-87 | an element a sorted list's prefix leaves out is not before any element the prefix keeps |
| AlertsView.ViewShowsFirst | fase1/frontend/app/dashboard/alerts/page.tsx:69-87 | no filtered alert left out of the view comes strictly before a shown one in the chosen order: the view is the first 20 |
| AlertsView.NewestFirst | fase1/frontend/app/dashboard/alerts/page.tsx:71-72 | sorting by time shows the newest first |
| AlertsView.MostSeriousFirst | fase1/frontend/app/dashboard/alerts/page.tsx:73-77 | sorting by type shows danger, then warning, then info |
| AlertsView.ActiveCountAppend | fase1/frontend/lib/store/useSystemStore.ts:603-605 | the active count of a concatenation is the sum |
| AlertsView.ActiveCountRemove | fase1/frontend/lib/store/useSystemStore.ts:603-605 | removing one alert removes its share of the count |
| AlertsView.MultisetRemove | fase1/frontend/app/dashboard/alerts/page.tsx:69 | removing position `j` removes that element from the multiset |
| AlertsView.ActiveCountPermutation | fase1/frontend/app/dashboard/alerts/page.tsx:69 | reordering alerts keeps the active count |
| AlertsView.ModeOfPermutation | fase1/frontend/app/dashboard/alerts/page.tsx:69 | reordering alerts keeps the system mode |
| AlertsView.RenderAsWritten | fase1/frontend/app/dashboard/alerts/page.tsx:51-90 | as written: with no search and type "all", the store's own alert list is sorted in place |
| AlertsView.TypeSortReordersStore | fase1/frontend/app/dashboard/alerts/page.tsx:69-77 | a newer warning before an older danger alert is swapped, leaving the store out of time order |
| AlertsView.Render | fase1/frontend/app/dashboard/alerts/page.tsx:51-90 | corrected: the view is computed on a copy, in the chosen order, and the store is not modified |
| AlertsView.TimeAgo | fase1/frontend/app/dashboard/alerts/page.tsx:129-140 | days, hours, minutes or "a moment", by the age's band, with whole-unit counts |
| AlertsView.AgoText | fase1/frontend/app/dashboard/alerts/page.tsx:129-140 | the text starts "hace " and is plural exactly when the count exceeds one |
| DashboardView.FindIndex | fase1/frontend/app/dashboard/page.tsx:158-164 | `find` on a topic returns the first position holding it, or none |
| DashboardView.FindTopic | fase1/frontend/app/dashboard/page.tsx:158-164 | the found reading is on the topic and in the list; none exactly when no reading is |
| DashboardView.LedPayload | fase1/frontend/app/dashboard/page.tsx:173-180 | the LED payload is the reading's non-null value |
| DashboardView.LedsAfterData | fase1/frontend/app/dashboard/page.tsx:157-221 | the buzzer follows the first buzzer reading, else the LED payload's `buzzer`, else is kept; mode and LEDs follow the first LED payload; an LED reading without a payload, or no LED reading, keeps them |
| DashboardView.PatternLeds | fase1/frontend/app/dashboard/page.tsx:619-654 | each pattern's LEDs: all on, all off, alternate, sequence; an unknown pattern keeps them |
| DashboardView.PatternIdempotent | fase1/frontend/app/dashboard/page.tsx:619-654 | applying a pattern twice is applying it once, and known patterns ignore the prior state |
| DashboardView.ToggleLed | fase1/frontend/app/dashboard/page.tsx:588-608 | toggling flips one LED and leaves the others |
| DashboardView.ToggleTwice | fase1/frontend/app/dashboard/page.tsx:588-608 | toggling twice restores every LED |
| DashboardView.SensorKey | fase1/frontend/app/dashboard/page.tsx:251-261 | a reading's card key is never empty |
| DashboardView.CardLatestIsLatest | fase1/frontend/app/dashboard/page.tsx:234-261 | a card's reading is a sensor reading in the data with that key, and no such reading is later |
| DashboardView.LatestAgree | fase1/frontend/app/dashboard/page.tsx:462-472 | when every reading is a sensor reading, the cards and the alerts see the same latest readings |
| DashboardView.ClimateCard | fase1/frontend/app/dashboard/page.tsx:266-304 | red iff disabled, green iff enabled with both readings, trend by the connection |
| DashboardView.AirCard | fase1/frontend/app/dashboard/page.tsx:306-325 | red iff disabled or "MALA", green iff enabled and "BUENA" |
| DashboardView.LightCard | fase1/frontend/app/dashboard/page.tsx:327-346 | red iff disabled, green iff enabled and "SI" |
| DashboardView.MotionCard | fase1/frontend/app/dashboard/page.tsx:348-369 | red iff disabled, blue iff a truthy distance, "Detectando" iff there is a distance reading |
| DashboardView.PressureCard | fase1/frontend/app/dashboard/page.tsx:371-396 | off, waiting, or danger outside [1005,1030], warning outside [1010,1025], else success |
| DashboardView.PressureBands | fase1/frontend/app/dashboard/page.tsx:371-396 | for a number: colour and trend text by band |
| DashboardView.FanCard | fase1/frontend/app/dashboard/page.tsx:398-425 | red iff disabled, green iff enabled and "ON" |
| DashboardView.CardsAfter | fase1/frontend/app/dashboard/page.tsx:229-433 | no data keeps the cards; otherwise each of the six cards (climate, air, lighting, motion, pressure, fan) follows its sensor's latest reading and switch |
| DashboardView.AirAlert | fase1/frontend/app/dashboard/page.tsx:475-484 | an air-quality alert iff the latest air reading is "MALA" |
| DashboardView.BuzzerAlert | fase1/frontend/app/dashboard/page.tsx:499-508 | a buzzer alert iff the latest buzzer reading is "ON" |
| DashboardView.TempAlert | fase1/frontend/app/dashboard/page.tsx:487-496 | a danger alert iff the temperature is above 30 or below 18 |
| DashboardView.PressureAlert | fase1/frontend/app/dashboard/page.tsx:511-532 | danger outside [1005,1030], else warning outside [1010,1025], else none |
| DashboardView.FanAlert | fase1/frontend/app/dashboard/page.tsx:535-552 | "fan active" iff the fan reports ON and is enabled; at most one fan alert |
| DashboardView.DashAlerts | fase1/frontend/app/dashboard/page.tsx:447-556 | the connection alert first (info when connected, danger otherwise), only it without data, at most six |
| DashboardView.DashAlertsTemperature | fase1/frontend/app/dashboard/page.tsx:487-496 | the list has the temperature alert iff the latest temperature is out of range |
| DashboardView.DashAlertsPressure | fase1/frontend/app/dashboard/page.tsx:511-532 | the list has the pressure danger alert iff the latest pressure is outside [1005,1030] |
| DashboardView.PressureCardMatchesAlert | fase1/frontend/app/dashboard/page.tsx:371-396 | the pressure card's danger and warning colours agree with the pressure alerts |
| DashboardView.PressureTextCompares | fase1/frontend/app/dashboard/page.tsx:371-532 | the text "1000" compares as 1000: the card shows "Baja presión" in the danger colour and the pressure alert fires |
| DashboardView.TempTextCompares | fase1/frontend/app/dashboard/page.tsx:487-496 | the text "35" and the array [35] both raise the temperature alert |
| DashboardView.NonNumericTextNeverAlerts | fase1/frontend/app/dashboard/page.tsx:487-532 | text that is not a number ("Baja") raises neither the temperature nor the pressure alert |
| DashboardView.CommandMessage | fase1/frontend/app/dashboard/page.tsx:567-690 | every known LED command has a message; an unknown one has none |
| DashboardView.PowerTopics | fase1/frontend/app/dashboard/page.tsx:743-785 | climate switches two topics, others one; an unknown id uses its own sensor topic |
| DashboardView.PowerMessages | fase1/frontend/app/dashboard/page.tsx:788-805 | one stamped `enabled` message per topic, in order |
| DashboardView.Dashboard.constructor | fase1/frontend/app/dashboard/page.tsx:62-82 | all sensors on, LEDs off, manual mode off, nothing sent |
| DashboardView.Dashboard.SyncLeds | fase1/frontend/app/dashboard/page.tsx:157-221 | the LED state follows the incoming data |
| DashboardView.Dashboard.OnSensorStatus | fase1/frontend/app/dashboard/page.tsx:148-153 | a status report sets that switch to the flag's truthiness |
| DashboardView.Dashboard.HandleLedCommand | fase1/frontend/app/dashboard/page.tsx:567-700 | each command updates its part of the LED state and is published; an unknown one does nothing |
| DashboardView.Dashboard.HandleToggleFan | fase1/frontend/app/dashboard/page.tsx:703-733 | the opposite fan state is published; the switch flips only on success |
| DashboardView.Dashboard.HandleTogglePower | fase1/frontend/app/dashboard/page.tsx:736-821 | every topic gets the new state; the switch flips only when all publishes succeed |
| DashboardView.FailedToggleKeepsState | fase1/frontend/app/dashboard/page.tsx:808-819 | reverting after a failure restores every switch |
| SensorsPage.GetLatestByTopic | fase1/frontend/app/mqtt-sensors/page.tsx:172-185 | the latest reading per topic, without the snapshot topic |
| SensorsPage.LatestByTopicKeys | fase1/frontend/app/mqtt-sensors/page.tsx:172-185 | a topic has an entry iff some reading is on it and it is not "siepa/sensors" |
| SensorsPage.LatestByTopicEntry | fase1/frontend/app/mqtt-sensors/page.tsx:172-185 | an entry is on its topic, no reading there is later, and earlier readings there are strictly older |
| SensorsPage.FirstSnapshot | fase1/frontend/app/mqtt-sensors/page.tsx:187-191 | `find` returns the first snapshot on the topic, or none iff there is no snapshot |
| SensorsPage.SiepaSensorsNeverSnapshot | fase1/frontend/app/mqtt-sensors/useMqtt.ts:382-394 | the hook never attaches `complete_data` to a "siepa/sensors" reading |
| SensorsPage.CompleteSystemDataNeverFound | fase1/frontend/app/mqtt-sensors/page.tsx:187-191 | as written: the page never finds a snapshot among readings on its topic |
| SensorsPage.SnapshotFound | fase1/frontend/app/mqtt-sensors/useMqtt.ts:382-394 | corrected: a full-system object on the complete topic is found as the snapshot and carries its payload |
| SensorsPage.GetChipColor | fase1/frontend/app/mqtt-sensors/page.tsx:114-128 | each status text has its colour; every other text is red |
| SensorsPage.ErrorStatusIsDanger | fase1/frontend/app/mqtt-sensors/page.tsx:114-128 | every "Error: …" status is red |
| SensorsPage.Page.constructor | fase1/frontend/app/mqtt-sensors/page.tsx:25-31 | all five switches on, nothing sent |
| SensorsPage.Page.HandleSensorToggle | fase1/frontend/app/mqtt-sensors/page.tsx:63-90 | the command goes to the sensor's topic; a failed publish leaves the switch in the opposite position |
| Sidebar.Render | fase1/frontend/components/organisms/DashboardSidebar.tsx:102-111 | every item is rendered, in order, highlighted iff its path is active |
| Sidebar.ActiveOnOwnPath | fase1/frontend/components/organisms/DashboardSidebar.tsx:59-64 | each item is active on its own path, and non-home items also below it |
| Sidebar.HomeOnlyExact | fase1/frontend/components/organisms/DashboardSidebar.tsx:59-64 | the overview is not active below its path |
| Sidebar.DifferAt | fase1/frontend/components/organisms/DashboardSidebar.tsx:59-64 | no path starts with two prefixes that differ at a shared position |
| Sidebar.AtMostOneActive | fase1/frontend/components/organisms/DashboardSidebar.tsx:59-64 | at most one of the layout's four entries is highlighted on any path |
| Sidebar.AlertsPageHighlight | fase1/frontend/components/organisms/DashboardSidebar.tsx:102-111 | on the alerts page only the alerts entry is highlighted |
| IntegrationCheck.MissingIssues | fase1/frontend/test-frontend-integration.js:105-109 | an issue for exactly each required field that is `undefined` or `null` |
| IntegrationCheck.PointIssues | fase1/frontend/test-frontend-integration.js:102-124 | skipped points have no issue; checked ones report missing fields, a non-numeric value and a non-number timestamp |
| IntegrationCheck.AllIssuesOf | fase1/frontend/test-frontend-integration.js:102-125 | an issue is reported iff its point has it |
| IntegrationCheck.SkippedPointsAreSilent | fase1/frontend/test-frontend-integration.js:103 | a point without a sensor type, or whose type starts with "_", causes no issue |
| IntegrationCheck.VerifyDataFormat | fase1/frontend/test-frontend-integration.js:96-135 | throws iff a point has a truthy non-text sensor type; otherwise valid iff no issue |
| IntegrationCheck.CleanData | fase1/frontend/test-frontend-integration.js:127-134 | data whose points are all clean has no issue |
| IntegrationCheck.MockDataValid | fase1/frontend/test-frontend-integration.js:7-69 | the bundled sample validates, with its statistics entry skipped |
| Sensors.InitialTable | fase1/backend/core/sensors/sensor_manager.py:20-26 | every known sensor starts enabled |
| Sensors.Flag | fase1/backend/core/sensors/sensor_manager.py:134-136 | the stored flag, `False` for an unknown sensor |
| Sensors.SensorManager.constructor | fase1/backend/core/sensors/sensor_manager.py:14-29 | the initial table, buzzer low |
| Sensors.SensorManager.IsSensorEnabled | fase1/backend/core/sensors/sensor_manager.py:134-136 | unknown sensors are disabled |
| Sensors.SensorManager.GetSensorStatus | fase1/backend/core/sensors/sensor_manager.py:130-132 | a copy of the table, covering exactly the known sensors |
| Sensors.SensorManager.EnableSensor | fase1/backend/core/sensors/sensor_manager.py:120-128 | succeeds iff the sensor is known, sets only its flag; an unknown one changes nothing |
| Sensors.SensorManager.ControlBuzzer | fase1/backend/core/sensors/sensor_manager.py:91-95 | in real mode the pin follows the truthiness of the state; in testing it is untouched |
| Sensors.SensorManager.ReadAllSensors | fase1/backend/core/sensors/sensor_manager.py:97-118 | each value is present iff its sensor is enabled, each device is read iff needed, and the time is always there |
| Sensors.InitiallyAllOn | fase1/backend/core/sensors/sensor_manager.py:20-26 | a fresh manager reads every sensor |
| SystemCommands.Dispatch | fase1/backend/core/system.py:84-129 | buzzer, shutdown and sensor-switch commands by topic, with `dict.get` defaults |
| SystemCommands.PerSensorTopic | fase1/backend/core/system.py:117-129 | a topic below the sensor prefix switches the sensor it names |
| SystemCommands.EnableTopic | fase1/backend/core/system.py:102-116 | the general enable topic switches the sensor the payload names |
| SystemCommands.OtherTopicsIgnored | fase1/backend/core/system.py:84-129 | any other topic does nothing |
| SystemCommands.SiepaSystem.constructor | fase1/backend/core/system.py:20-36 | a manager in the given mode, a blank display, not running |
| SystemCommands.SiepaSystem.Shutdown | fase1/backend/core/system.py:136-153 | the loop stops, the display shows the shutdown screen, and `sys.exit(0)` is called |
| SystemCommands.SiepaSystem.HandleMqttCommand | fase1/backend/core/system.py:84-129 | each dispatched command acts on the manager or the system, and a successful switch is confirmed |
| Display.BlankRows | fase1/backend/core/display/display_manager.py:99-103 | `[""] * rows`: `max(rows, 0)` empty rows |
| Display.SimulatedLcd.constructor | fase1/backend/core/display/display_manager.py:99-103 | blank rows, cursor on row 0 |
| Display.SimulatedLcd.Clear | fase1/backend/core/display/display_manager.py:105-107 | every row blank |
| Display.SimulatedLcd.CursorPos | fase1/backend/core/display/display_manager.py:109-111 | the row of the position becomes current |
| Display.SimulatedLcd.WriteString | fase1/backend/core/display/display_manager.py:113-116 | the current row (Python indexing) becomes the text cut to the width; an index error changes nothing |
| Display.SensorLines | fase1/backend/core/display/display_manager.py:64-83 | the sensor screen has four lines |
| Display.OrDash | fase1/backend/core/display/display_manager.py:71 | `v or '-'` |
| Display.Cut | fase1/backend/core/display/display_manager.py:113-116 | every line cut to the width |
| Display.LightRow | fase1/backend/core/display/display_manager.py:64-83 | the third row shows "SI" or "NO" by the light value |
| Display.AirRow | fase1/backend/core/display/display_manager.py:64-83 | the fourth row shows "MALO" or "BUENO" by the air value |
| Display.MissingClimateShowsDash | fase1/backend/core/display/display_manager.py:64-83 | a missing or zero temperature and humidity show as "-" |
| Display.DisplayManager.constructor | fase1/backend/core/display/display_manager.py:12-39 | a 20x4 simulated LCD, blank |
| Display.DisplayManager.WriteAt | fase1/backend/core/display/display_manager.py:59-62 | the cursor moves to the row and that row takes the text |
| Display.DisplayManager.DisplaySensorData | fase1/backend/core/display/display_manager.py:64-83 | the screen is exactly the four cut sensor lines |
| Display.DisplayManager.DisplayMessage | fase1/backend/core/display/display_manager.py:85-88 | the message, cut, on row 0 and the rest blank |
| Display.DisplayManager.DisplayShutdown | fase1/backend/core/display/display_manager.py:90-93 | "Sistema apagado" alone |
| Subscriber.ParseTopic | fase1/backend/core/mqtt/subscriber.py:90-94 | parsed iff at least four segments; group, device and sensor are segments 0, 2 and 3 |
| Subscriber.ParseFourPieces | fase1/backend/core/mqtt/subscriber.py:90-94 | a four-piece topic parses to its pieces |
| Subscriber.ShortTopicIgnored | fase1/backend/core/mqtt/subscriber.py:90-91 | a three-piece topic is ignored |
| Subscriber.Comparable | fase1/backend/core/mqtt/subscriber.py:141-167 | only numbers and booleans compare with a number; anything else raises and is caught |
| Subscriber.ThresholdAlerts | fase1/backend/core/mqtt/subscriber.py:141-167 | at most one alert, for the device: high or low temperature or humidity exactly when the value compares past the threshold, motion iff truthy, none for other sensors |
| Subscriber.ProcessAlerts | fase1/backend/core/mqtt/subscriber.py:141-167 | the alerts the checks append are exactly `ThresholdAlerts` |
| Subscriber.MqttSubscriber.constructor | fase1/backend/core/mqtt/subscriber.py:115-139 | no rows, no alerts |
| Subscriber.NullValor | fase1/backend/core/mqtt/subscriber.py:115-139 | a `null` valor stores no row and raises no alert; a missing one is stored as 0 and alerts only for motion |
| Subscriber.MqttSubscriber.OnMessage | fase1/backend/core/mqtt/subscriber.py:82-139 | a valid topic and object payload append one row (with `dict.get` defaults) exactly when the insert binds and fills the `NOT NULL` columns, and append exactly the threshold alerts of its `valor` |
| Dht11.PulseBits | fase1/backend/sensores/sensor_dht11_alternative.py:32-54 | forty bits, one per pulse: 1 exactly when the high pulse exceeds 50 µs |
| Dht11.CollectBits | fase1/backend/sensores/sensor_dht11_alternative.py:32-54 | the collecting loop yields those forty bits |
| Dht11.MsbValueRange | fase1/backend/sensores/sensor_dht11_alternative.py:69-71 | `k` bits, most significant first, are below `2^k` |
| Dht11.BitsOf | fase1/backend/sensores/sensor_dht11_alternative.py:69-71 | a number written as `k` bits has `k` bits |
| Dht11.MsbValueBitsOf | fase1/backend/sensores/sensor_dht11_alternative.py:69-71 | writing a number as bits and reading them back gives the number |
| Dht11.BitsOfMsbValue | fase1/backend/sensores/sensor_dht11_alternative.py:69-71 | reading bits and writing the number back gives the bits |
| Dht11.Decode | fase1/backend/sensores/sensor_dht11_alternative.py:60-77 | a reading is accepted iff there are forty bits whose checksum byte is the sum of bytes 0 and 2 modulo 256 |
| Dht11.DecodedBytes | fase1/backend/sensores/sensor_dht11_alternative.py:60-77 | an accepted reading holds two byte values |
| Dht11.FrameRoundTrip | fase1/backend/sensores/sensor_dht11_alternative.py:60-77 | a frame with a correct checksum decodes to its humidity and temperature bytes |
| Dht11.ReadDht11 | fase1/backend/sensores/sensor_dht11_alternative.py:32-77 | the reading is the decoding of the collected bits |

## Left out

- The MQTT transport, the broker, React rendering and hooks' effect scheduling: messages arrive as method calls, and publishing is a sequence of `(topic, message)` pairs with its success as a parameter.
- zustand's `persist` and local storage: the `partialize` functions are modelled, not the storage.
- Clocks and randomness: `Date.now()`, ISO date text (`toISOString`, `isoformat`), random alert ids and alert message texts are parameters.
- The 300 ms timer that resets `isSyncing` after a reading (useSystemStore.ts:451-458); `Received` sets the flag and the reset is not modelled.
- The deferred `connect()` after a reconnect delay (MqttProvider.tsx:289-296) is taken as immediate.
- `getAllChartData`, the subscription topic lists of the pages and the page titles, descriptions and icons are not modelled.
- `Error:` statuses are modelled only as text for the chip colour.
- `JSON.stringify` text is kept symbolic (the `JsonText` value) rather than spelled out.
- `localeCompare` on sensor names is modelled as code-unit order.
- `Object.values` over the history buffers is taken in the order keys were first added (`historyOrder`).
- The dashboard's `<` and `>` between a reading and a number convert the reading with `Number` (`Js.ToNumber`): whole decimal text after trimming, blank text as 0, `null` as 0, booleans, and arrays of at most one element. `Infinity` and hexadecimal, octal or binary text are taken as NaN, not as the number JavaScript reads.
- The dashboard's `timestamp` field of the LED state is not modelled.
- Hardware: GPIO, the RPLCD driver, the DHT11 start signal and pulse timing, the ultrasonic echo, the LDR and the MQ135. Pulse durations and device readings are parameters, and the random simulated readings of testing mode are parameters too.
- The back end's main loop, signal handling, MQTT connection and sensor clean-up on shutdown, and every `print`; the subscriber's SQLite writes are the `rows` sequence.
- Python's `str()` formatting of values on the LCD is a parameter (`show`).
- SystemCommands.HandleMqttCommand: a non-text sensor name in the payload of the general enable topic is not modelled.
- Text.LowerChar: lowers ASCII and Latin-1 capitals only; JavaScript's `toLowerCase` also lowers the capitals of other scripts ('Ā', 'Σ'), whose Unicode tables are not modelled.
- Text.ToLower: keeps the length, whereas `toLowerCase` can lengthen text ('İ' becomes two code units). `ChartHistory.MapSensorType`, `AlertsView.Matches`, `AlertsView.Filtered`, `MqttHook.EvalValue` and `DashboardView.SensorKey` inherit both limits.
- DashboardView.SensorKey: a `sensor_type` that is present but not text (`5`, `false`, `0`: `?.` stops only at `null` and `undefined`) makes `toLowerCase` throw in the source (dashboard page.tsx:251), which aborts that derivation; the model skips such a reading instead.
- StoreModel.StepOf: a truthy timestamp that is not a number (date text) is charted at `now`; the source charts it at `new Date(ts)` (useSystemStore.ts:250-257), and date parsing is not modelled.
- SystemStore.Store.AddSensorData: a reading's time is kept in milliseconds, whereas the hook stores `toLocaleString()` text, and the store reads it back with `new Date(...)` for its one-second duplicate test (useSystemStore.ts:229-238). The text's one-second resolution is not modelled, so two equal readings 200 ms apart across a second boundary are a duplicate here but not in the source. Locale parsing is not modelled either: in a day-first locale the text does not parse and the source never finds a duplicate.
- MqttHook.Normalize: stores the time as milliseconds rather than locale text (see `AddSensorData`). A truthy `timestamp` that `Number` cannot read (an object, non-numeric text) gives "Invalid Date" text in the source; the model times that reading now.
- MqttHook.Normalize: a truthy `unidad` that is not text (`1`, `true`) is kept as it is by `parsedData.unidad || unidad` (useMqtt.ts:407); the model's unit is text, so it uses the segment's unit instead.
- MqttHook.KindOf: for the same reason, a truthy non-text `unidad` beside a `sensor_type` becomes "" rather than the value (`value.unidad || ""`, useMqtt.ts:126).
- SensorsPage.GetLatestByTopic: returns a map from topic to reading, so the order of the source's `Object.values` array, which the page renders, is not kept.
- The default arguments are not modelled: `getChartData`'s `maxPoints = 20` and `requestHistoricalData`'s `"all"` and `30`. Callers pass every argument.
- MqttHook.DisplayText: shows a number by its integer part, so 1.5 shows as "1" where `String(1.5)` is "1.5", and an array as empty text; JavaScript's number and array formatting is not modelled.
- Subscriber.MqttSubscriber.OnMessage: integers beyond SQLite's 64-bit range, which fail to bind, are not modelled, since numbers are `real`.
- Js.Round2: numbers are exact reals, so rounding a JSON or `parseFloat` number, and the product `v*100`, to binary64 is not modelled. The double nearest 2.675 is 2.67499999999999982…, whose product with 100 rounds to exactly 267.5, so the source gives 2.68 (more than 0.005 away), while the model gives 2.67; the text "1.005" is charted as 1 by the source and as 1.01 here.
- Js.Fixed2: for the same reason `toFixed`, which rounds the exact binary64 value, can disagree with `Math.round(v*100)/100`: `(2.675).toFixed(2)` is "2.67" where `Math.round` gives 2.68; on reals the two agree for non-negative `v`.

## Findings

| source | as written | input that shows it | evidently intended | confidence | as-written member | corrected member |
|---|---|---|---|---|---|---|
| fase1/frontend/app/dashboard/alerts/page.tsx:51-69 | with an empty search and type "all", the list that `sort` reorders is the store's own `alerts` array, so rendering reorders the store | a warning newer than a danger alert, sorted by type | sort a copy; the store keeps its newest-first order | not executed; high | AlertsView.RenderAsWritten, AlertsView.TypeSortReordersStore | AlertsView.Render |
| fase1/frontend/lib/providers/MqttProvider.tsx:336-348 | distinct concrete topics are divided by the 10 subscription patterns, and a wildcard pattern matches many topics | eleven recent messages on eleven `GRUPO2/sensores/rasp01/*` topics give 110 | a percentage between 0 and 100 | not executed; high | MqttProvider.DataQuality, MqttProvider.DataQualityExceeds100 | MqttProvider.CappedDataQuality |
| fase1/frontend/app/mqtt-sensors/page.tsx:187-191 | the snapshot is looked for on "siepa/sensors", but the hook attaches `complete_data` only on its complete topic (useMqtt.ts:382-394) | any stream of messages on "siepa/sensors" | find the snapshot on the topic that carries it | not executed; medium | SensorsPage.CompleteSystemDataNeverFound, SensorsPage.SiepaSensorsNeverSnapshot | SensorsPage.SnapshotFound |
