/**
 * One run of the periodic task: if the client is connected, collect KPIs once, wrap
 * them in an envelope, serialize it, and publish it retained with QoS 0.
 */
module KpiReading {
  import opened Wrappers
  import opened JavaFormat
  import opened KpiMessage

  /** `Objects.requireNonNull(clientId)` throws. */
  datatype ReaderError = NullClientId

  /** The reader's state that a tick depends on; the client handle is the `connected` input of `Run`. */
  datatype KpiReader = KpiReader(clientId: string, topic: Option<string>)

  /** `new KpiReader(client, clientId, topic, collector)`: only the client ID must be non-null. */
  function NewKpiReader(clientId: Option<string>, topic: Option<string>): (r: Result<KpiReader, ReaderError>)
    ensures r.Failure? <==> clientId.None?
    ensures r.Failure? ==> r.error == NullClientId
    ensures r.Success? ==> r.value.clientId == clientId.value && r.value.topic == topic
  {
    if clientId.None? then Failure(NullClientId) else Success(KpiReader(clientId.value, topic))
  }

  /** A Paho message as far as the tick sets it up. */
  datatype MqttMessage = MqttMessage(payload: seq<byte>, qos: int, retained: bool)

  datatype Action = NoOp | Publish(topic: string, message: MqttMessage)

  /** What one tick did: whether it asked the collector, and what it handed to the client. */
  datatype TickResult = TickResult(collectorCalled: bool, action: Action)

  /** `"/%s/%s".formatted(topic, clientId)`; a null topic prints as `null`. */
  function PublishTopic(r: KpiReader): (t: string)
    ensures r.topic.Some? ==> t == "/" + r.topic.value + "/" + r.clientId
    ensures r.topic.None? ==> t == "/null/" + r.clientId
  {
    "/" + FormatString(r.topic) + "/" + r.clientId
  }

  /** The envelope a tick builds from the collected KPIs at the instant `now`. */
  function Envelope<K>(r: KpiReader, kpis: seq<K>, now: Instant): (m: KpiMsg<K>)
    ensures m.clientId == Some(r.clientId) && m.kpis == Some(kpis) && TakenAt(m, now)
  {
    NewKpiMsg(Some(r.clientId), Some(kpis), now)
  }

  /**
   * `readSensorKpi()`: a null collection yields no message; otherwise the payload is the
   * serialized envelope, or the empty byte array when serialization fails (`None`).
   */
  function ReadSensorKpi<K>(r: KpiReader, collected: Option<seq<K>>, now: Instant, serialize: KpiMsg<K> -> Option<seq<byte>>): (payload: Option<seq<byte>>)
    ensures payload.None? <==> collected.None?
    ensures collected.Some? && serialize(Envelope(r, collected.value, now)).Some? ==>
      payload == serialize(Envelope(r, collected.value, now))
    ensures collected.Some? && serialize(Envelope(r, collected.value, now)).None? ==> payload == Some([])
  {
    if collected.Some? then
      var msg := Envelope(r, collected.value, now);
      var bytes := serialize(msg);
      Some(if bytes.Some? then bytes.value else [])
    else None
  }

  /**
   * `run()`. `connected` is `client.isConnected()`, `collected` what `collectKpis()`
   * would return, `now` the instant the envelope reads, `serialize` the JSON mapper.
   */
  function Run<K>(r: KpiReader, connected: bool, collected: Option<seq<K>>, now: Instant, serialize: KpiMsg<K> -> Option<seq<byte>>): (t: TickResult)
    ensures t.collectorCalled <==> connected
    ensures t.action.Publish? <==> connected && collected.Some?
    ensures t.action.Publish? ==>
      && t.action.topic == PublishTopic(r)
      && t.action.message.qos == 0
      && t.action.message.retained
      && t.action.message.payload == serialize(Envelope(r, collected.value, now)).GetOr([])
  {
    if !connected then TickResult(false, NoOp)
    else
      var payload := ReadSensorKpi(r, collected, now, serialize);
      if payload.None? then TickResult(true, NoOp)
      else TickResult(true, Publish(PublishTopic(r), MqttMessage(payload.value, 0, true)))
  }

  /** An empty collection is still published: only a null one is skipped. */
  lemma EmptyCollectionIsPublished<K>(r: KpiReader, now: Instant, serialize: KpiMsg<K> -> Option<seq<byte>>)
    ensures Run(r, true, Some([]), now, serialize).action.Publish?
    ensures Run(r, true, None, now, serialize).action == NoOp
  {
  }

  /** A failed serialization still publishes, with a zero-length payload, on the usual topic. */
  lemma SerializationFailurePublishesEmpty<K>(r: KpiReader, kpis: seq<K>, now: Instant, serialize: KpiMsg<K> -> Option<seq<byte>>)
    requires serialize(Envelope(r, kpis, now)).None?
    ensures Run(r, true, Some(kpis), now, serialize).action == Publish(PublishTopic(r), MqttMessage([], 0, true))
  {
  }

  /** The levels of an MQTT topic name: the pieces between `/` separators. */
  function Levels(s: string): (levels: seq<string>)
    ensures 1 <= |levels|
    decreases |s|
  {
    if |s| == 0 then [""]
    else if s[0] == '/' then [""] + Levels(s[1..])
    else
      var rest := Levels(s[1..]);
      [[s[0]] + rest[0]] + rest[1..]
  }

  lemma {:induction false} LevelsWithoutSeparator(s: string)
    requires '/' !in s
    ensures Levels(s) == [s]
    decreases |s|
  {
    if |s| > 0 {
      assert '/' !in s[1..];
      LevelsWithoutSeparator(s[1..]);
      assert [s[0]] + s[1..] == s;
    }
  }

  lemma {:induction false} LevelsOfJoin(a: string, b: string)
    requires '/' !in a
    ensures Levels(a + "/" + b) == [a] + Levels(b)
    decreases |a|
  {
    if |a| == 0 {
      assert a + "/" + b == "/" + b;
      assert ("/" + b)[1..] == b;
    } else {
      var s := a + "/" + b;
      assert s[0] == a[0];
      assert s[1..] == a[1..] + "/" + b;
      assert '/' !in a[1..];
      LevelsOfJoin(a[1..], b);
      assert [a[0]] + a[1..] == a;
    }
  }

  /**
   * When neither the topic nor the client ID contains `/`, the publish topic has exactly
   * three levels: an empty one, the configured topic, the client ID.
   */
  lemma PublishTopicLevels(r: KpiReader)
    requires r.topic.Some? && '/' !in r.topic.value && '/' !in r.clientId
    ensures Levels(PublishTopic(r)) == ["", r.topic.value, r.clientId]
  {
    var t := r.topic.value;
    assert PublishTopic(r) == "" + "/" + (t + "/" + r.clientId);
    LevelsOfJoin("", t + "/" + r.clientId);
    LevelsOfJoin(t, r.clientId);
    LevelsWithoutSeparator(r.clientId);
  }
}
