/**
 * Configuration resolution: options read from the environment, merged with options
 * passed programmatically, into the one option set the publisher runs with.
 */
module Publisher {
  import opened Wrappers
  import opened JavaFormat
  import opened Regex
  import opened Validator
  import opened PublisherOptions
  import opened KpiMessage
  import opened KpiReading
  import Defaults

  const EnvBrokerUrl := "MQTT_MSG_BROKER_URL"
  const EnvClientId := "MQTT_CLIENT_ID"
  const EnvTopic := "MQTT_TOPIC"
  const EnvConnectionTimeout := "MQTT_CONNECTION_TIMEOUT"
  const EnvTaskInterval := "TASK_INTERVAL"
  const EnvInitialTaskDelay := "INITIAL_TASK_DELAY"

  /** `System.getenv(name)`: null when the variable is unset. */
  function Getenv(env: map<string, string>, name: string): Option<string> {
    if name in env then Some(env[name]) else None
  }

  /**
   * `readOptsFromEnv()`. The environment is a map; `Utils.parseIntNullable` and
   * `Utils.parseLongNullable` are the parameters `parseInt` and `parseLong`.
   */
  function ReadOptsFromEnv(
    env: map<string, string>,
    parseInt: Option<string> -> Option<Int32>,
    parseLong: Option<string> -> Option<Int64>): (o: Options)
    ensures o.clientId == Getenv(env, EnvClientId)
    ensures o.brokerUrl == Getenv(env, EnvBrokerUrl)
    ensures o.topic == Getenv(env, EnvTopic)
    ensures o.initialTaskDelay
      == (if parseLong(Getenv(env, EnvInitialTaskDelay)).Some? then parseLong(Getenv(env, EnvInitialTaskDelay)) else Some(0))
    ensures o.taskInterval
      == (if parseLong(Getenv(env, EnvTaskInterval)).Some? then parseLong(Getenv(env, EnvTaskInterval)) else Some(5000))
    ensures o.connectionTimeout
      == (if parseInt(Getenv(env, EnvConnectionTimeout)).Some? then parseInt(Getenv(env, EnvConnectionTimeout)) else Some(10))
    ensures HasOptionalFields(o)
  {
    var builder := NewBuilder(Getenv(env, EnvClientId), Getenv(env, EnvBrokerUrl), Getenv(env, EnvTopic));
    var timeout := parseInt(Getenv(env, EnvConnectionTimeout));
    var b1 := if timeout.Some? then SetMqttConnectionTimeout(builder, timeout) else builder;
    var interval := parseLong(Getenv(env, EnvTaskInterval));
    var b2 := if interval.Some? then SetTaskInterval(b1, interval) else b1;
    var delay := parseLong(Getenv(env, EnvInitialTaskDelay));
    var b3 := if delay.Some? then SetInitialTaskDelay(b2, delay) else b2;
    Build(b3)
  }

  /** None of the three optional fields is null. */
  predicate HasOptionalFields(o: Options) {
    o.initialTaskDelay.Some? && o.taskInterval.Some? && o.connectionTimeout.Some?
  }

  /** The exception texts for a missing required field, up to the variable's name. */
  const MissingClientIdLead := "You must provide a unique value for MQTT client ID. You can do so by explicitly creating a options object or providing a value for environment variable "
  const MissingBrokerUrlLead := "You must provide a value for the URL to the MQTT message broker. You can do so by explicitly creating a options object or providing a value for environment variable "
  const MissingTopicLead := "You must provide a value for MQTT topic. You can do so by explicitly creating a options object or providing a value for environment variable "

  /** The `IllegalArgumentException`s resolution can throw. */
  datatype ConfigError =
    | NoOptions
    | MissingClientId
    | InvalidClientId(validatorMessage: Option<string>)
    | MissingBrokerUrl
    | MissingTopic
  {
    /** The exception's message. */
    function Message(): Option<string> {
      match this
      case NoOptions => Some("You must provide mandatory options either by using environment variables or by creating an instance of MqttKpiPublisherOptions!")
      case MissingClientId => Some(MissingClientIdLead + EnvClientId + "!")
      case InvalidClientId(m) => m
      case MissingBrokerUrl => Some(MissingBrokerUrlLead + EnvBrokerUrl + "!")
      case MissingTopic => Some(MissingTopicLead + EnvTopic + "!")
    }
  }

  /** A required field: the environment's value when non-null, else the argument's. */
  function EnvThenArg<T>(fromEnv: Option<T>, fromArg: Option<T>): Option<T> {
    if fromEnv.Some? then fromEnv else fromArg
  }

  /** A missing argument object is replaced by one with null required fields and default optional ones. */
  function ArgOrBlank(argOpts: Option<Options>): Options {
    if argOpts.Some? then argOpts.value else Build(NewBuilder(None, None, None))
  }

  /** The optional-field step as written: the "argument" arm copies the environment's (null) value. */
  function MergeOptionalAsWritten(b: Builder, e: Options, a: Options): Builder {
    var b1 :=
      if e.initialTaskDelay.Some? then SetInitialTaskDelay(b, e.initialTaskDelay)
      else if a.initialTaskDelay.Some? then SetInitialTaskDelay(b, e.initialTaskDelay)
      else b;
    var b2 :=
      if e.taskInterval.Some? then SetTaskInterval(b1, e.taskInterval)
      else if a.taskInterval.Some? then SetTaskInterval(b1, e.taskInterval)
      else b1;
    if e.connectionTimeout.Some? then SetMqttConnectionTimeout(b2, e.connectionTimeout)
    else if a.connectionTimeout.Some? then SetMqttConnectionTimeout(b2, e.connectionTimeout)
    else b2
  }

  /**
   * `mergeOptions(envOpts, argOpts)` as written, with the client-ID pattern as a
   * parameter (the code passes the default pattern; see `MergeOptions`).
   */
  function MergeOptionsWith(pattern: Pattern, envOpts: Option<Options>, argOpts: Option<Options>): (r: Result<Options, ConfigError>)
    // both sources missing
    ensures envOpts.None? && argOpts.None? ==> r == Failure(NoOptions)
    // only the environment missing: the arguments, unchecked
    ensures envOpts.None? && argOpts.Some? ==> r == Success(argOpts.value)
    // error order: client ID missing, client ID invalid, broker URL missing, topic missing
    ensures envOpts.Some? ==>
      var e, a := envOpts.value, ArgOrBlank(argOpts);
      var id := EnvThenArg(e.clientId, a.clientId);
      && (id.None? ==> r == Failure(MissingClientId))
      && (id.Some? && !IsClientIdValid(id.value, Defaults.CharsClientId, pattern).isValid ==>
            r == Failure(InvalidClientId(IsClientIdValid(id.value, Defaults.CharsClientId, pattern).errMsg)))
      && ((id.Some? && IsClientIdValid(id.value, Defaults.CharsClientId, pattern).isValid
           && EnvThenArg(e.brokerUrl, a.brokerUrl).None?) ==> r == Failure(MissingBrokerUrl))
      && ((id.Some? && IsClientIdValid(id.value, Defaults.CharsClientId, pattern).isValid
           && EnvThenArg(e.brokerUrl, a.brokerUrl).Some? && EnvThenArg(e.topic, a.topic).None?) ==> r == Failure(MissingTopic))
      && (r.Success? <==>
            && id.Some? && IsClientIdValid(id.value, Defaults.CharsClientId, pattern).isValid
            && EnvThenArg(e.brokerUrl, a.brokerUrl).Some? && EnvThenArg(e.topic, a.topic).Some?)
    // success: required fields by precedence, optional fields as written
    ensures envOpts.Some? && r.Success? ==>
      var e, a := envOpts.value, ArgOrBlank(argOpts);
      && r.value.clientId == EnvThenArg(e.clientId, a.clientId) && r.value.clientId.Some?
      && IsClientIdValid(r.value.clientId.value, Defaults.CharsClientId, pattern).isValid
      && r.value.brokerUrl == EnvThenArg(e.brokerUrl, a.brokerUrl) && r.value.brokerUrl.Some?
      && r.value.topic == EnvThenArg(e.topic, a.topic) && r.value.topic.Some?
      && r.value.initialTaskDelay == (if e.initialTaskDelay.None? && a.initialTaskDelay.None? then Some(0) else e.initialTaskDelay)
      && r.value.taskInterval == (if e.taskInterval.None? && a.taskInterval.None? then Some(5000) else e.taskInterval)
      && r.value.connectionTimeout == (if e.connectionTimeout.None? && a.connectionTimeout.None? then Some(10) else e.connectionTimeout)
  {
    if envOpts.None? && argOpts.None? then Failure(NoOptions)
    else if envOpts.None? then Success(argOpts.value)
    else
      var e := envOpts.value;
      var a := ArgOrBlank(argOpts);
      if e.clientId.None? && a.clientId.None? then Failure(MissingClientId)
      else
        var clientId := if e.clientId.None? then a.clientId.value else e.clientId.value;
        var validation := IsClientIdValid(clientId, Defaults.CharsClientId, pattern);
        if !validation.isValid then Failure(InvalidClientId(validation.errMsg))
        else if e.brokerUrl.None? && a.brokerUrl.None? then Failure(MissingBrokerUrl)
        else
          var brokerUrl := if e.brokerUrl.None? then a.brokerUrl.value else e.brokerUrl.value;
          if e.topic.None? && a.topic.None? then Failure(MissingTopic)
          else
            var topic := if e.topic.None? then a.topic.value else e.topic.value;
            var builder := NewBuilder(Some(clientId), Some(brokerUrl), Some(topic));
            Success(Build(MergeOptionalAsWritten(builder, e, a)))
  }

  /**
   * `mergeOptions` exactly as the code calls it: 10 characters, pattern `[a-zA-Z0-9]`.
   * Only the two early exits can succeed; with environment options present it fails at
   * the client-ID step, either because no ID is given or because the validator rejects it.
   */
  function MergeOptions(envOpts: Option<Options>, argOpts: Option<Options>): (r: Result<Options, ConfigError>)
    ensures envOpts.None? && argOpts.None? ==> r == Failure(NoOptions)
    ensures envOpts.None? && argOpts.Some? ==> r == Success(argOpts.value)
    ensures envOpts.Some? ==> r.Failure? && (r.error == MissingClientId || r.error.InvalidClientId?)
  {
    if envOpts.Some? then
      MergeOptionsWithEnvNeverSucceeds(envOpts.value, argOpts);
      MergeOptionsWith(Defaults.ClientIdPattern, envOpts, argOpts)
    else
      MergeOptionsWith(Defaults.ClientIdPattern, envOpts, argOpts)
  }

  /**
   * The constructor's resolution `mergeOptions(readOptsFromEnv(), options)`. It always
   * throws: for a missing client ID exactly when neither source names one, and
   * otherwise with the validator's rejection.
   */
  function Resolve(
    env: map<string, string>,
    parseInt: Option<string> -> Option<Int32>,
    parseLong: Option<string> -> Option<Int64>,
    argOpts: Option<Options>): (r: Result<Options, ConfigError>)
    ensures r.Failure?
    ensures r.error == MissingClientId <==> EnvThenArg(Getenv(env, EnvClientId), ArgOrBlank(argOpts).clientId).None?
    ensures r.error != MissingClientId ==> r.error.InvalidClientId?
  {
    MergeOptions(Some(ReadOptsFromEnv(env, parseInt, parseLong)), argOpts)
  }

  /** `t` occurs in `s` starting at index `i`. */
  predicate OccursAt(s: string, t: string, i: int) {
    0 <= i <= |s| - |t| && s[i..i + |t|] == t
  }

  predicate Contains(s: string, t: string) {
    exists i :: 0 <= i <= |s| && OccursAt(s, t, i)
  }

  lemma ContainsMiddle(prefix: string, t: string, suffix: string)
    ensures Contains(prefix + t + suffix, t)
  {
    var s := prefix + t + suffix;
    assert s[|prefix|..|prefix| + |t|] == t;
    assert OccursAt(s, t, |prefix|);
  }

  /** Each missing-field exception names the environment variable that would supply the field. */
  lemma MissingFieldMessagesNameVariable()
    ensures Contains(MissingClientId.Message().value, EnvClientId)
    ensures Contains(MissingBrokerUrl.Message().value, EnvBrokerUrl)
    ensures Contains(MissingTopic.Message().value, EnvTopic)
  {
    ContainsMiddle(MissingClientIdLead, EnvClientId, "!");
    ContainsMiddle(MissingBrokerUrlLead, EnvBrokerUrl, "!");
    ContainsMiddle(MissingTopicLead, EnvTopic, "!");
  }

  /** A failure's exception message is the validator's message when the client ID is rejected. */
  lemma InvalidClientIdCarriesValidatorMessage(pattern: Pattern, envOpts: Option<Options>, argOpts: Option<Options>)
    requires envOpts.Some?
    requires EnvThenArg(envOpts.value.clientId, ArgOrBlank(argOpts).clientId).Some?
    requires !IsClientIdValid(EnvThenArg(envOpts.value.clientId, ArgOrBlank(argOpts).clientId).value, Defaults.CharsClientId, pattern).isValid
    ensures MergeOptionsWith(pattern, envOpts, argOpts).Failure?
    ensures MergeOptionsWith(pattern, envOpts, argOpts).error.Message()
         == IsClientIdValid(EnvThenArg(envOpts.value.clientId, ArgOrBlank(argOpts).clientId).value, Defaults.CharsClientId, pattern).errMsg
  {
  }

  /**
   * In the real composition the environment options are never null and never have a
   * null optional field: the early return for missing environment options and the
   * quirky "argument" arms are dead, and a successful result's optional fields are the
   * environment-derived ones whatever the arguments say.
   */
  lemma ResolutionIgnoresArgumentOptionals(
    pattern: Pattern,
    env: map<string, string>,
    parseInt: Option<string> -> Option<Int32>,
    parseLong: Option<string> -> Option<Int64>,
    argOpts: Option<Options>)
    ensures
      var e := ReadOptsFromEnv(env, parseInt, parseLong);
      var r := MergeOptionsWith(pattern, Some(e), argOpts);
      r.Success? ==>
        && r.value.initialTaskDelay == e.initialTaskDelay
        && r.value.taskInterval == e.taskInterval
        && r.value.connectionTimeout == e.connectionTimeout
        && HasOptionalFields(r.value)
  {
  }

  /**
   * As written, resolution never succeeds: a missing client ID fails, and any client ID
   * that is present fails the default validator, with the pattern message when it has
   * 10 characters and the length message otherwise.
   */
  lemma ResolveAlwaysFails(
    env: map<string, string>,
    parseInt: Option<string> -> Option<Int32>,
    parseLong: Option<string> -> Option<Int64>,
    argOpts: Option<Options>)
    ensures
      var r := Resolve(env, parseInt, parseLong, argOpts);
      var id := EnvThenArg(Getenv(env, EnvClientId), ArgOrBlank(argOpts).clientId);
      && r.Failure?
      && (id.None? ==> r.error == MissingClientId)
      && (id.Some? && |id.value| == 10 ==>
            r.error.Message() == Some("Client ID must conform to the pattern [a-zA-Z0-9]"))
      && (id.Some? && |id.value| != 10 ==>
            r.error.Message() == Some("Client ID must be exactly 10 characters long"))
  {
    var e := ReadOptsFromEnv(env, parseInt, parseLong);
    var id := EnvThenArg(Getenv(env, EnvClientId), ArgOrBlank(argOpts).clientId);
    if id.Some? {
      NoClientIdPassesDefaultPolicy(id.value);
    }
  }

  /**
   * As written, no merge with environment options present succeeds: whatever client ID
   * resolves, the default validator rejects it. This is the first reason why everything
   * after the client-ID check, the optional-field arms included, is dead code.
   */
  lemma MergeOptionsWithEnvNeverSucceeds(envOpts: Options, argOpts: Option<Options>)
    ensures MergeOptionsWith(Defaults.ClientIdPattern, Some(envOpts), argOpts).Failure?
  {
    var id := EnvThenArg(envOpts.clientId, ArgOrBlank(argOpts).clientId);
    if id.Some? {
      NoClientIdPassesDefaultPolicy(id.value);
    }
  }

  /**
   * The optional-field quirk in isolation. It is reachable only once the client-ID
   * pattern is corrected (see `MergeOptionsWithEnvNeverSucceeds`), so this demonstration
   * merges under `IntendedClientIdPattern`: an environment option set with a null initial
   * delay and an argument option set with delay 7 resolve to a null delay, neither 7 nor
   * the default.
   */
  lemma MergeOptionsQuirkDropsArgument()
    ensures
      var e := Options(Some("ABC1234567"), Some("tcp://broker:1883"), Some("engines"), None, Some(5000), Some(10));
      var a := Options(None, None, None, Some(7), None, None);
      var r := MergeOptionsWith(IntendedClientIdPattern, Some(e), Some(a));
      r.Success? && r.value.initialTaskDelay.None?
  {
    var e := Options(Some("ABC1234567"), Some("tcp://broker:1883"), Some("engines"), None, Some(5000), Some(10));
    IntendedPolicyAcceptsExactlyAlnum("ABC1234567");
    assert IsClientIdValid("ABC1234567", Defaults.CharsClientId, IntendedClientIdPattern).isValid;
  }

  /** An optional field as intended: the environment's value, else the argument's, else the default. */
  function EnvThenArgThenDefault<T>(fromEnv: Option<T>, fromArg: Option<T>, default: T): (r: Option<T>)
    ensures r.Some?
    ensures fromEnv.Some? ==> r == fromEnv
    ensures fromEnv.None? && fromArg.Some? ==> r == fromArg
    ensures fromEnv.None? && fromArg.None? ==> r == Some(default)
  {
    if fromEnv.Some? then fromEnv else if fromArg.Some? then fromArg else Some(default)
  }

  /**
   * `mergeOptions` as evidently intended: client IDs are checked against
   * `[a-zA-Z0-9]+`, and each optional field takes the environment's value, else the
   * argument's, else the default.
   */
  function MergeOptionsIntended(envOpts: Option<Options>, argOpts: Option<Options>): (r: Result<Options, ConfigError>)
    ensures envOpts.None? ==> r == MergeOptionsWith(IntendedClientIdPattern, envOpts, argOpts)
    ensures r.Success? <==> MergeOptionsWith(IntendedClientIdPattern, envOpts, argOpts).Success?
    ensures r.Failure? ==> r == MergeOptionsWith(IntendedClientIdPattern, envOpts, argOpts)
    ensures envOpts.Some? && r.Success? ==>
      var e, a := envOpts.value, ArgOrBlank(argOpts);
      && r.value.clientId == EnvThenArg(e.clientId, a.clientId)
      && r.value.brokerUrl == EnvThenArg(e.brokerUrl, a.brokerUrl)
      && r.value.topic == EnvThenArg(e.topic, a.topic)
      && r.value.initialTaskDelay == EnvThenArgThenDefault(e.initialTaskDelay, a.initialTaskDelay, 0)
      && r.value.taskInterval == EnvThenArgThenDefault(e.taskInterval, a.taskInterval, 5000)
      && r.value.connectionTimeout == EnvThenArgThenDefault(e.connectionTimeout, a.connectionTimeout, 10)
  {
    var merged := MergeOptionsWith(IntendedClientIdPattern, envOpts, argOpts);
    if envOpts.None? || merged.Failure? then merged
    else
      var e, a := envOpts.value, ArgOrBlank(argOpts);
      Success(merged.value.(
        initialTaskDelay := EnvThenArgThenDefault(e.initialTaskDelay, a.initialTaskDelay, Defaults.InitialTaskDelay),
        taskInterval := EnvThenArgThenDefault(e.taskInterval, a.taskInterval, Defaults.TaskInterval),
        connectionTimeout := EnvThenArgThenDefault(e.connectionTimeout, a.connectionTimeout, Defaults.MqttConnectionTimeout)))
  }

  /**
   * Where the environment supplies every optional field, the quirk fix changes nothing:
   * the corrected merge equals the as-written merge run with the corrected pattern.
   */
  lemma QuirkFixInvisibleWithEnvOptionals(envOpts: Options, argOpts: Option<Options>)
    requires HasOptionalFields(envOpts)
    ensures MergeOptionsIntended(Some(envOpts), argOpts) == MergeOptionsWith(IntendedClientIdPattern, Some(envOpts), argOpts)
  {
  }

  /**
   * The environment reader as evidently intended: the three optional fields report the
   * environment alone, null when a variable is unset or does not parse, so that the
   * merge can fall back to the argument options and only then to the defaults.
   */
  function ReadEnvVariables(
    env: map<string, string>,
    parseInt: Option<string> -> Option<Int32>,
    parseLong: Option<string> -> Option<Int64>): (o: Options)
    ensures o.clientId == Getenv(env, EnvClientId)
    ensures o.brokerUrl == Getenv(env, EnvBrokerUrl)
    ensures o.topic == Getenv(env, EnvTopic)
    ensures o.initialTaskDelay == parseLong(Getenv(env, EnvInitialTaskDelay))
    ensures o.taskInterval == parseLong(Getenv(env, EnvTaskInterval))
    ensures o.connectionTimeout == parseInt(Getenv(env, EnvConnectionTimeout))
  {
    Options(Getenv(env, EnvClientId), Getenv(env, EnvBrokerUrl), Getenv(env, EnvTopic),
            parseLong(Getenv(env, EnvInitialTaskDelay)), parseLong(Getenv(env, EnvTaskInterval)),
            parseInt(Getenv(env, EnvConnectionTimeout)))
  }

  /**
   * The as-written reader is the corrected one with the defaults filled in: the two agree
   * on the required fields, and each optional field of the former is the latter's value,
   * or the default where the latter is null.
   */
  lemma EnvReaderFillsDefaults(
    env: map<string, string>,
    parseInt: Option<string> -> Option<Int32>,
    parseLong: Option<string> -> Option<Int64>)
    ensures
      var o, v := ReadOptsFromEnv(env, parseInt, parseLong), ReadEnvVariables(env, parseInt, parseLong);
      && o.clientId == v.clientId && o.brokerUrl == v.brokerUrl && o.topic == v.topic
      && o.initialTaskDelay == EnvThenArgThenDefault(v.initialTaskDelay, None, 0)
      && o.taskInterval == EnvThenArgThenDefault(v.taskInterval, None, 5000)
      && o.connectionTimeout == EnvThenArgThenDefault(v.connectionTimeout, None, 10)
  {
  }

  /** The constructor's resolution with all three corrections. */
  function ResolveIntended(
    env: map<string, string>,
    parseInt: Option<string> -> Option<Int32>,
    parseLong: Option<string> -> Option<Int64>,
    argOpts: Option<Options>): Result<Options, ConfigError>
  {
    MergeOptionsIntended(Some(ReadEnvVariables(env, parseInt, parseLong)), argOpts)
  }

  /**
   * Even with the pattern and the merge arms corrected, the as-written environment reader
   * shadows argument options: with `TASK_INTERVAL` unset and an argument interval of
   * 1000, the interval resolves to the default 5000. The corrected resolution uses 1000.
   */
  lemma EnvDefaultsShadowArguments(
    parseInt: Option<string> -> Option<Int32>,
    parseLong: Option<string> -> Option<Int64>)
    requires parseInt(None) == None && parseLong(None) == None
    ensures
      var env := map[EnvClientId := "ABC1234567", EnvTopic := "engines", EnvBrokerUrl := "tcp://broker:1883"];
      var a := Options(None, None, None, None, Some(1000), None);
      && MergeOptionsIntended(Some(ReadOptsFromEnv(env, parseInt, parseLong)), Some(a)).Success?
      && MergeOptionsIntended(Some(ReadOptsFromEnv(env, parseInt, parseLong)), Some(a)).value.taskInterval == Some(5000)
      && ResolveIntended(env, parseInt, parseLong, Some(a)).Success?
      && ResolveIntended(env, parseInt, parseLong, Some(a)).value.taskInterval == Some(1000)
  {
    var env := map[EnvClientId := "ABC1234567", EnvTopic := "engines", EnvBrokerUrl := "tcp://broker:1883"];
    assert Getenv(env, EnvClientId) == Some("ABC1234567");
    assert Getenv(env, EnvTaskInterval) == None;
    IntendedPolicyAcceptsExactlyAlnum("ABC1234567");
  }

  /**
   * In the corrected resolution, an optional field the environment leaves unset or
   * unparsable takes the argument value when one is given, else the default; a value
   * from the environment always wins.
   */
  lemma ResolveIntendedOptionalPrecedence(
    env: map<string, string>,
    parseInt: Option<string> -> Option<Int32>,
    parseLong: Option<string> -> Option<Int64>,
    argOpts: Option<Options>)
    ensures
      var r := ResolveIntended(env, parseInt, parseLong, argOpts);
      var a := ArgOrBlank(argOpts);
      r.Success? ==>
        && r.value.initialTaskDelay == EnvThenArgThenDefault(parseLong(Getenv(env, EnvInitialTaskDelay)), a.initialTaskDelay, 0)
        && r.value.taskInterval == EnvThenArgThenDefault(parseLong(Getenv(env, EnvTaskInterval)), a.taskInterval, 5000)
        && r.value.connectionTimeout == EnvThenArgThenDefault(parseInt(Getenv(env, EnvConnectionTimeout)), a.connectionTimeout, 10)
  {
  }

  /**
   * Corrected resolution succeeds exactly when the three required fields resolve and the
   * client ID is 10 ASCII letters or digits; environment values win for every field.
   */
  lemma ResolveIntendedSucceedsIff(
    env: map<string, string>,
    parseInt: Option<string> -> Option<Int32>,
    parseLong: Option<string> -> Option<Int64>,
    argOpts: Option<Options>)
    ensures
      var a := ArgOrBlank(argOpts);
      var id := EnvThenArg(Getenv(env, EnvClientId), a.clientId);
      var r := ResolveIntended(env, parseInt, parseLong, argOpts);
      r.Success? <==>
        && id.Some? && |id.value| == 10 && (forall i :: 0 <= i < |id.value| ==> IsAlnum(id.value[i]))
        && EnvThenArg(Getenv(env, EnvBrokerUrl), a.brokerUrl).Some?
        && EnvThenArg(Getenv(env, EnvTopic), a.topic).Some?
  {
    var a := ArgOrBlank(argOpts);
    var id := EnvThenArg(Getenv(env, EnvClientId), a.clientId);
    if id.Some? {
      IntendedPolicyAcceptsExactlyAlnum(id.value);
    }
  }

  /** The reader the connection-success callback builds from the resolved options. */
  function ReaderFor(opts: Options): (r: Result<KpiReader, ReaderError>)
    ensures r.Success? <==> opts.clientId.Some?
    ensures r.Success? ==> r.value.clientId == opts.clientId.value && r.value.topic == opts.topic
  {
    NewKpiReader(opts.clientId, opts.topic)
  }

  /**
   * Options merged with environment options present always give a reader, and its
   * publish topic is `/<topic>/<clientId>` with the resolved values.
   */
  lemma MergedOptionsYieldReader(pattern: Pattern, envOpts: Options, argOpts: Option<Options>)
    requires MergeOptionsWith(pattern, Some(envOpts), argOpts).Success?
    ensures
      var o := MergeOptionsWith(pattern, Some(envOpts), argOpts).value;
      && ReaderFor(o).Success?
      && PublishTopic(ReaderFor(o).value) == "/" + o.topic.value + "/" + o.clientId.value
  {
  }

  /**
   * Without environment options the argument options are passed through unchecked, so a
   * null client ID reaches the reader, whose constructor then throws.
   */
  lemma UncheckedArgumentsReachNullClientId()
    ensures
      var a := Build(NewBuilder(None, Some("tcp://broker:1883"), Some("engines")));
      && MergeOptions(None, Some(a)) == Success(a)
      && ReaderFor(a) == Failure(NullClientId)
  {
  }

  /**
   * An example deployment: `MQTT_CLIENT_ID=ABC1234567`, `MQTT_TOPIC=engines`, a
   * broker URL, no optional variables and no argument options. As written it fails on
   * the pattern; corrected it resolves to the defaults and publishes on
   * `/engines/ABC1234567`.
   */
  lemma ExampleDeployment<K>(
    parseInt: Option<string> -> Option<Int32>,
    parseLong: Option<string> -> Option<Int64>,
    kpi: K, now: Instant, serialize: KpiMsg<K> -> Option<seq<byte>>)
    requires parseInt(None) == None && parseLong(None) == None
    ensures
      var env := map[EnvClientId := "ABC1234567", EnvTopic := "engines", EnvBrokerUrl := "tcp://broker:1883"];
      && Resolve(env, parseInt, parseLong, None)
           == Failure(InvalidClientId(Some("Client ID must conform to the pattern [a-zA-Z0-9]")))
      && ResolveIntended(env, parseInt, parseLong, None)
           == Success(Options(Some("ABC1234567"), Some("tcp://broker:1883"), Some("engines"), Some(0), Some(5000), Some(10)))
      && ReaderFor(ResolveIntended(env, parseInt, parseLong, None).value).Success?
      && Run(ReaderFor(ResolveIntended(env, parseInt, parseLong, None).value).value, true, Some([kpi]), now, serialize).action.topic
           == "/engines/ABC1234567"
  {
    var env := map[EnvClientId := "ABC1234567", EnvTopic := "engines", EnvBrokerUrl := "tcp://broker:1883"];
    assert Getenv(env, EnvClientId) == Some("ABC1234567");
    assert Getenv(env, EnvConnectionTimeout) == None;
    assert Getenv(env, EnvTaskInterval) == None;
    assert Getenv(env, EnvInitialTaskDelay) == None;
    ResolveAlwaysFails(env, parseInt, parseLong, None);
    IntendedPolicyAcceptsExactlyAlnum("ABC1234567");
    assert "/" + "engines" + "/" + "ABC1234567" == "/engines/ABC1234567";
  }
}
