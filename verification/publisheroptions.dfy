/**
 * The publisher's six options and the builder that produces them. Every field is a
 * nullable Java reference (`String`, `Long`, `Integer`), hence `Option`.
 */
module PublisherOptions {
  import opened Wrappers
  import opened JavaFormat
  import Defaults

  /** An immutable option set; its fields are the six getters. */
  datatype Options = Options(
    clientId: Option<string>,
    brokerUrl: Option<string>,
    topic: Option<string>,
    initialTaskDelay: Option<Int64>,
    taskInterval: Option<Int64>,
    connectionTimeout: Option<Int32>)

  /** The accumulating builder: three final required fields and three settable optional ones. */
  datatype Builder = Builder(
    clientId: Option<string>,
    brokerUrl: Option<string>,
    topic: Option<string>,
    initialTaskDelay: Option<Int64>,
    taskInterval: Option<Int64>,
    connectionTimeout: Option<Int32>)

  /** `new Builder(clientId, brokerUrl, topic)`: the given required fields, defaults for the rest. */
  function NewBuilder(clientId: Option<string>, brokerUrl: Option<string>, topic: Option<string>): (b: Builder)
    ensures b.clientId == clientId && b.brokerUrl == brokerUrl && b.topic == topic
    ensures b.initialTaskDelay == Some(0)
    ensures b.taskInterval == Some(5000)
    ensures b.connectionTimeout == Some(10)
  {
    Builder(clientId, brokerUrl, topic,
            Some(Defaults.InitialTaskDelay), Some(Defaults.TaskInterval), Some(Defaults.MqttConnectionTimeout))
  }

  /** `setInitialTaskDelay(x)`; `x` may be null. */
  function SetInitialTaskDelay(b: Builder, x: Option<Int64>): (r: Builder)
    ensures r.initialTaskDelay == x
    ensures r.(initialTaskDelay := b.initialTaskDelay) == b
  {
    b.(initialTaskDelay := x)
  }

  /** `setTaskInterval(x)`; `x` may be null. */
  function SetTaskInterval(b: Builder, x: Option<Int64>): (r: Builder)
    ensures r.taskInterval == x
    ensures r.(taskInterval := b.taskInterval) == b
  {
    b.(taskInterval := x)
  }

  /** `setMqttConnectionTimeout(x)`; `x` may be null. */
  function SetMqttConnectionTimeout(b: Builder, x: Option<Int32>): (r: Builder)
    ensures r.connectionTimeout == x
    ensures r.(connectionTimeout := b.connectionTimeout) == b
  {
    b.(connectionTimeout := x)
  }

  /** `build()`: an option set whose six getters report the builder's six fields. */
  function Build(b: Builder): (o: Options)
    ensures o.clientId == b.clientId && o.brokerUrl == b.brokerUrl && o.topic == b.topic
    ensures o.initialTaskDelay == b.initialTaskDelay
    ensures o.taskInterval == b.taskInterval
    ensures o.connectionTimeout == b.connectionTimeout
  {
    Options(b.clientId, b.brokerUrl, b.topic, b.initialTaskDelay, b.taskInterval, b.connectionTimeout)
  }

  /** `MqttKpiPublisherOptions.equals(o)`: false for null, else `Objects.equals` on all six fields. */
  predicate OptionsEquals(a: Options, o: Option<Options>) {
    match o
    case None => false
    case Some(b) =>
      && a.clientId == b.clientId && a.brokerUrl == b.brokerUrl && a.topic == b.topic
      && a.initialTaskDelay == b.initialTaskDelay && a.taskInterval == b.taskInterval
      && a.connectionTimeout == b.connectionTimeout
  }

  /** `Builder.equals(o)`: the same field-wise comparison on builders. */
  predicate BuilderEquals(a: Builder, o: Option<Builder>) {
    match o
    case None => false
    case Some(b) =>
      && a.clientId == b.clientId && a.brokerUrl == b.brokerUrl && a.topic == b.topic
      && a.initialTaskDelay == b.initialTaskDelay && a.taskInterval == b.taskInterval
      && a.connectionTimeout == b.connectionTimeout
  }

  /** Java equality of non-null option sets is value equality of the model. */
  lemma OptionsEqualsIsValueEquality(a: Options, b: Options)
    ensures OptionsEquals(a, Some(b)) <==> a == b
    ensures !OptionsEquals(a, None)
  {
  }

  /** Equal builders build equal option sets, and only equal builders do. */
  lemma BuildRespectsEquality(a: Builder, b: Builder)
    ensures BuilderEquals(a, Some(b)) <==> OptionsEquals(Build(a), Some(Build(b)))
  {
  }

  /** Two calls to the same setter: the second value is the one kept. */
  lemma LastWriteWins(b: Builder, d1: Option<Int64>, d2: Option<Int64>, t1: Option<Int32>, t2: Option<Int32>)
    ensures SetInitialTaskDelay(SetInitialTaskDelay(b, d1), d2) == SetInitialTaskDelay(b, d2)
    ensures SetTaskInterval(SetTaskInterval(b, d1), d2) == SetTaskInterval(b, d2)
    ensures SetMqttConnectionTimeout(SetMqttConnectionTimeout(b, t1), t2) == SetMqttConnectionTimeout(b, t2)
  {
  }

  /** Setters of different fields commute, so the order of optional settings is irrelevant. */
  lemma SettersCommute(b: Builder, d: Option<Int64>, i: Option<Int64>, t: Option<Int32>)
    ensures SetInitialTaskDelay(SetTaskInterval(b, i), d) == SetTaskInterval(SetInitialTaskDelay(b, d), i)
    ensures SetInitialTaskDelay(SetMqttConnectionTimeout(b, t), d) == SetMqttConnectionTimeout(SetInitialTaskDelay(b, d), t)
    ensures SetTaskInterval(SetMqttConnectionTimeout(b, t), i) == SetMqttConnectionTimeout(SetTaskInterval(b, i), t)
  {
  }

  /** The builder never checks required fields: `new Builder(null, null, null).build()` is a legal option set. */
  lemma BlankOptionsCarryDefaults()
    ensures Build(NewBuilder(None, None, None)) == Options(None, None, None, Some(0), Some(5000), Some(10))
  {
  }
}
