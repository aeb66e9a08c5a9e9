/**
 * The dashboard-wide MQTT provider: received messages are collected in a
 * buffer that is flushed into the visible list (at most 500 messages kept),
 * a counter of failed connection attempts ends the client after 10 errors,
 * and a data-quality figure is derived from the topics heard recently.
 */
module MqttProvider {
  import opened Wrappers
  import opened Text
  import opened Js

  /** The most messages kept in memory. */
  const RetentionLimit := 500
  /** The buffer is flushed as soon as it holds this many messages. */
  const MaxBufferSize := 50
  /** A flush is due when this many milliseconds passed since the last one. */
  const DebounceTime := 100
  /** The client is ended once this many errors happened in a row. */
  const MaxReconnectAttempts := 10
  /** The number of topic patterns subscribed to. */
  const ExpectedTopics := 10
  /** Messages younger than this count for the data quality. */
  const QualityWindow := 300000

  const PongTopic := "GRUPO2/pong/rasp01"

  /** A received message; the time is when it arrived. */
  datatype Message = Message(topic: string, timestamp: int, value: Json, completeData: Json)

  /** The retention rule shared by flushing and cleaning up: a list longer
      than the limit is cut to its last 500 entries. */
  function Retain(xs: seq<Message>): (r: seq<Message>)
    ensures |r| <= RetentionLimit
    ensures |xs| <= RetentionLimit ==> r == xs
    ensures |xs| > RetentionLimit ==> |r| == RetentionLimit
    ensures r == xs[|xs| - |r|..]
  {
    if |xs| > RetentionLimit then SliceFrom(xs, -RetentionLimit) else xs
  }

  /** `data.valor || data.value || data`. */
  function ShownValue(data: Json): (v: Json)
    requires !data.JNull?
    ensures TruthyOpt(Member(data, "valor")) ==> v == Member(data, "valor").value
    ensures !TruthyOpt(Member(data, "valor")) && TruthyOpt(Member(data, "value")) ==>
      v == Member(data, "value").value
    ensures !TruthyOpt(Member(data, "valor")) && !TruthyOpt(Member(data, "value")) ==> v == data
    ensures !data.JObj? ==> v == data
  {
    var valor := Member(data, "valor");
    var value := Member(data, "value");
    if TruthyOpt(valor) then valor.value else if TruthyOpt(value) then value.value else data
  }

  /** The topics heard within the last five minutes. */
  function RecentTopics(data: seq<Message>, now: int): set<string> {
    set i | 0 <= i < |data| && now - data[i].timestamp < QualityWindow :: data[i].topic
  }

  /** `Math.round` of a non-negative real. */
  function RoundHalfUp(x: real): int {
    Floor(x + 0.5)
  }

  /** `dataQuality` as written: 0 without data, otherwise the share of the 10
      subscribed patterns, as a percentage, taken as the number of distinct
      recent topics over 10. */
  function DataQuality(data: seq<Message>, now: int): (q: int)
    ensures |data| == 0 ==> q == 0
    ensures |data| > 0 ==> q == 10 * |RecentTopics(data, now)|
  {
    if |data| == 0 then 0
    else RoundHalfUp(|RecentTopics(data, now)| as real / ExpectedTopics as real * 100.0)
  }

  /** The `k`-th of a family of sensor topics that all match the one
      subscription pattern `GRUPO2/sensores/rasp01/+`. */
  function SensorTopic(k: nat): string
    requires k < 60
  {
    "GRUPO2/sensores/rasp01/" + [(65 + k) as char]
  }

  /** One message, just received, on each of the first `n` such topics. */
  function FreshMessages(n: nat, now: int): (data: seq<Message>)
    requires n < 60
    ensures |data| == n
    ensures forall k :: 0 <= k < n ==> data[k] == Message(SensorTopic(k), now, JNull, JNull)
  {
    if n == 0 then [] else FreshMessages(n - 1, now) + [Message(SensorTopic(n - 1), now, JNull, JNull)]
  }

  /** A message appended to the data adds its topic when it is recent. */
  lemma RecentTopicsSnoc(data: seq<Message>, m: Message, now: int)
    ensures RecentTopics(data + [m], now) ==
      RecentTopics(data, now) + (if now - m.timestamp < QualityWindow then {m.topic} else {})
  {
    var d := data + [m];
    forall i | 0 <= i < |data| ensures d[i] == data[i] {}
    assert d[|data|] == m;
  }

  /** Different indices give different topics. */
  lemma SensorTopicsDiffer(k: nat, j: nat)
    requires k < 60 && j < 60 && k != j
    ensures SensorTopic(k) != SensorTopic(j)
  {
    assert SensorTopic(k)[23] != SensorTopic(j)[23];
  }

  /** The first `n` sensor topics. */
  function FirstTopics(n: nat): set<string>
    requires n < 60
  {
    if n == 0 then {} else FirstTopics(n - 1) + {SensorTopic(n - 1)}
  }

  /** A later topic is not among the first `n`, so there are `n` of them. */
  lemma {:induction false} FirstTopicsSize(n: nat)
    requires n < 60
    ensures forall m: nat :: n <= m < 60 ==> SensorTopic(m) !in FirstTopics(n)
    ensures |FirstTopics(n)| == n
  {
    if n > 0 {
      FirstTopicsSize(n - 1);
      forall m: nat | n <= m < 60 ensures SensorTopic(m) !in FirstTopics(n) {
        SensorTopicsDiffer(n - 1, m);
      }
    }
  }

  /** The topics of `FreshMessages(n, now)` are the first `n` topics, `n`
      distinct ones. */
  lemma {:induction false} FreshTopics(n: nat, now: int)
    requires n < 60
    ensures RecentTopics(FreshMessages(n, now), now) == FirstTopics(n)
    ensures |RecentTopics(FreshMessages(n, now), now)| == n
  {
    if n > 0 {
      FreshTopics(n - 1, now);
      RecentTopicsSnoc(FreshMessages(n - 1, now), Message(SensorTopic(n - 1), now, JNull, JNull), now);
    } else {
      assert RecentTopics(FreshMessages(n, now), now) == {};
    }
    FirstTopicsSize(n);
  }

  /** The figure is not a percentage: a wildcard subscription matches any
      number of concrete topics, so eleven recent sensor topics give 110. */
  lemma DataQualityExceeds100(now: int)
    ensures DataQuality(FreshMessages(11, now), now) == 110
  {
    FreshTopics(11, now);
  }

  /** The figure capped at 100, which is what a percentage of the subscribed
      patterns can reach. */
  function CappedDataQuality(data: seq<Message>, now: int): (q: int)
    ensures 0 <= q <= 100
    ensures |data| == 0 ==> q == 0
    ensures |RecentTopics(data, now)| <= ExpectedTopics ==> q == DataQuality(data, now)
  {
    Min(DataQuality(data, now), 100)
  }

  /** What `publishCommand` hands to the client. */
  datatype Outgoing = Verbatim(text: string) | Encoded(value: Json)

  /** The provider's state and the client it owns. */
  class Provider {
    var isConnected: bool
    var connectionStatus: string
    var sensorData: seq<Message>
    var buffer: seq<Message>
    var lastFlush: int
    var lastDataTime: Option<int>
    var pingStart: int
    var latency: int
    var reconnectAttempts: nat
    /** A client object exists, it reports itself connected, it was ended. */
    var hasClient: bool
    var clientConnected: bool
    var clientEnded: bool
    var published: seq<(string, Outgoing)>

    ghost predicate Valid()
      reads this
    {
      Sound() && |buffer| < MaxBufferSize
    }

    /** Everything `Valid` says except the bound on the buffer, which a
        message may reach just before it is flushed. */
    ghost predicate Sound()
      reads this
    {
      && |sensorData| <= RetentionLimit
      && reconnectAttempts <= MaxReconnectAttempts
      && (hasClient && !clientEnded ==> reconnectAttempts < MaxReconnectAttempts)
      && (clientEnded ==> !clientConnected)
    }

    /** The provider as mounted: a fresh client is connecting. */
    constructor (now: int)
      ensures Valid()
      ensures sensorData == [] && buffer == [] && reconnectAttempts == 0
      ensures hasClient && !clientConnected && !clientEnded && !isConnected
      ensures connectionStatus == "Conectando..." && published == []
    {
      isConnected := false;
      connectionStatus := "Conectando...";
      sensorData := [];
      buffer := [];
      lastFlush := now;
      lastDataTime := None;
      pingStart := 0;
      latency := 0;
      reconnectAttempts := 0;
      hasClient := true;
      clientConnected := false;
      clientEnded := false;
      published := [];
    }

    /** `flushMessageBuffer`: an empty buffer changes nothing; otherwise the
        buffered messages follow the shown ones in arrival order, the buffer
        is emptied and only the last 500 messages are kept. */
    method Flush(now: int)
      requires Sound() && |buffer| <= MaxBufferSize
      modifies this`sensorData, this`buffer, this`lastFlush, this`lastDataTime
      ensures Valid()
      ensures old(buffer) == [] ==>
        (sensorData == old(sensorData) && lastFlush == old(lastFlush) && lastDataTime == old(lastDataTime))
      ensures old(buffer) != [] ==>
        (sensorData == Retain(old(sensorData) + old(buffer)) && lastFlush == now && lastDataTime == Some(now))
      ensures buffer == []
    {
      if |buffer| == 0 {
        return;
      }
      var messages := buffer;
      buffer := [];
      lastFlush := now;
      sensorData := Retain(sensorData + messages);
      lastDataTime := Some(now);
    }

    /** The periodic timer: a flush when more than 100 ms passed since the
        last one. */
    method Tick(now: int)
      requires Valid()
      modifies this`sensorData, this`buffer, this`lastFlush, this`lastDataTime
      ensures Valid()
      ensures now - old(lastFlush) <= DebounceTime ==> buffer == old(buffer) && sensorData == old(sensorData)
      ensures now - old(lastFlush) > DebounceTime ==>
        (buffer == [] && sensorData == (if old(buffer) == [] then old(sensorData) else Retain(old(sensorData) + old(buffer))))
    {
      if now - lastFlush > DebounceTime {
        Flush(now);
      }
    }

    /** `cleanupOldData`: a list within the limit is left alone, a longer one
        keeps its last 500 messages. */
    method CleanupOldData()
      requires Valid()
      modifies this`sensorData
      ensures Valid()
      ensures sensorData == Retain(old(sensorData))
    {
      sensorData := Retain(sensorData);
    }

    /** The `message` handler. `parsed` is `None` when the text is not JSON,
        which drops the message. A pong answering an outstanding ping only
        records the latency. Any other message is buffered, and a buffer that
        reaches 50 is flushed at once. A `null` payload throws when its
        `valor` is read and is dropped. */
    method HandleMessage(topic: string, parsed: Option<Json>, now: int)
      requires Valid()
      modifies this`sensorData, this`buffer, this`lastFlush, this`lastDataTime, this`latency, this`pingStart
      ensures Valid()
      ensures parsed.None? ==> buffer == old(buffer) && sensorData == old(sensorData)
      ensures parsed.Some? && topic == PongTopic && old(pingStart) > 0 ==>
        latency == now - old(pingStart) && pingStart == 0
        && buffer == old(buffer) && sensorData == old(sensorData)
      ensures parsed.Some? && !(topic == PongTopic && old(pingStart) > 0) && parsed.value.JNull? ==>
        buffer == old(buffer) && sensorData == old(sensorData)
      ensures parsed.Some? && !(topic == PongTopic && old(pingStart) > 0) && !parsed.value.JNull? ==>
        var m := Message(topic, now, ShownValue(parsed.value), parsed.value);
        if |old(buffer)| + 1 < MaxBufferSize then buffer == old(buffer) + [m] && sensorData == old(sensorData)
        else buffer == [] && sensorData == Retain(old(sensorData) + old(buffer) + [m])
    {
      if parsed.None? {
        return;
      }
      var data := parsed.value;
      if topic == PongTopic && pingStart > 0 {
        latency := now - pingStart;
        pingStart := 0;
        return;
      }
      if data.JNull? {
        return;
      }
      var m := Message(topic, now, ShownValue(data), data);
      var before := buffer;
      buffer := before + [m];
      if |buffer| >= MaxBufferSize {
        Flush(now);
        assert sensorData == Retain(old(sensorData) + before + [m]);
      }
    }

    /** The client's `connect` event: connected, counter reset, first ping sent. */
    method OnConnect(now: int)
      requires Valid() && hasClient && !clientEnded
      modifies this`isConnected, this`connectionStatus, this`reconnectAttempts, this`clientConnected,
               this`pingStart, this`published
      ensures Valid()
      ensures isConnected && clientConnected && connectionStatus == "Conectado" && reconnectAttempts == 0
      ensures pingStart == now
      ensures published == old(published) + [("GRUPO2/ping/rasp01", Encoded(JObj(map["timestamp" := JNum(now as real)])))]
    {
      isConnected := true;
      clientConnected := true;
      connectionStatus := "Conectado";
      reconnectAttempts := 0;
      pingStart := now;
      published := published + [("GRUPO2/ping/rasp01", Encoded(JObj(map["timestamp" := JNum(now as real)])))];
    }

    /** The client's `error` event: one more failed attempt; the tenth ends
        the client. */
    method OnError(message: string)
      requires Valid() && hasClient && !clientEnded
      modifies this`isConnected, this`connectionStatus, this`reconnectAttempts, this`clientEnded,
               this`clientConnected
      ensures Valid()
      ensures !isConnected && connectionStatus == "Error: " + message
      ensures reconnectAttempts == old(reconnectAttempts) + 1
      ensures clientEnded <==> reconnectAttempts == MaxReconnectAttempts
      ensures !clientEnded ==> clientConnected == old(clientConnected)
    {
      isConnected := false;
      connectionStatus := "Error: " + message;
      reconnectAttempts := reconnectAttempts + 1;
      if reconnectAttempts >= MaxReconnectAttempts {
        clientEnded := true;
        clientConnected := false;
      }
    }

    /** The client's `disconnect` and `offline` events. The client goes
        offline once its stream has closed, so it no longer reports itself
        connected; a `disconnect` packet leaves that to the stream. */
    method OnDisconnect(offline: bool)
      requires Valid()
      modifies this`isConnected, this`connectionStatus, this`clientConnected
      ensures Valid()
      ensures !isConnected
      ensures connectionStatus == (if offline then "Fuera de línea" else "Desconectado")
      ensures clientConnected == (if offline then false else old(clientConnected))
    {
      isConnected := false;
      connectionStatus := if offline then "Fuera de línea" else "Desconectado";
      if offline {
        clientConnected := false;
      }
    }

    /** The client's `reconnect` event: only the status text changes. */
    method OnReconnect()
      requires Valid()
      modifies this`connectionStatus
      ensures Valid()
      ensures connectionStatus == "Reconectando..."
    {
      connectionStatus := "Reconectando...";
    }

    /** `reconnect`: the old client is ended, the counter reset, and (after the
        delay) a new client starts connecting. */
    method Reconnect()
      requires Valid()
      modifies this`reconnectAttempts, this`hasClient, this`clientConnected, this`clientEnded,
               this`connectionStatus
      ensures Valid()
      ensures reconnectAttempts == 0
      ensures hasClient && !clientConnected && !clientEnded && connectionStatus == "Conectando..."
    {
      reconnectAttempts := 0;
      hasClient := true;
      clientConnected := false;
      clientEnded := false;
      connectionStatus := "Conectando...";
    }

    /** `clearData`. */
    method ClearData()
      requires Valid()
      modifies this`sensorData, this`buffer, this`lastDataTime
      ensures Valid()
      ensures sensorData == [] && buffer == [] && lastDataTime.None?
    {
      sensorData := [];
      buffer := [];
      lastDataTime := None;
    }

    /** `publishCommand`: nothing is sent unless the client is connected; a
        text payload goes out verbatim, anything else as JSON; the result is
        the client's answer `queued`. */
    method PublishCommand(topic: string, payload: Json, queued: bool) returns (ok: bool)
      requires Valid()
      modifies this`published
      ensures Valid()
      ensures !(hasClient && clientConnected) ==> !ok && published == old(published)
      ensures hasClient && clientConnected ==>
        (ok == queued && published == old(published) + [(topic, if payload.JStr? then Verbatim(payload.s) else Encoded(payload))])
    {
      if !(hasClient && clientConnected) {
        return false;
      }
      published := published + [(topic, if payload.JStr? then Verbatim(payload.s) else Encoded(payload))];
      ok := queued;
    }
  }

  /** Ten errors in a row, from a freshly connected client, end it. */
  method TenErrorsEndTheClient(p: Provider)
    requires p.Valid() && p.hasClient && !p.clientEnded && p.reconnectAttempts == 0
    modifies p
    ensures p.Valid() && p.clientEnded && !p.clientConnected
  {
    var k := 0;
    while k < MaxReconnectAttempts
      invariant 0 <= k <= MaxReconnectAttempts
      invariant p.Valid() && p.hasClient
      invariant p.reconnectAttempts == k
      invariant k < MaxReconnectAttempts ==> !p.clientEnded
      invariant k == MaxReconnectAttempts ==> p.clientEnded
    {
      p.OnError("");
      k := k + 1;
    }
  }
}
