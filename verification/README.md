# MQTT KPI publisher: configuration resolution, client-ID validation and the publish tick

This project models the pure decision logic of the MQTT KPI publisher. The publisher is a Java agent. Each tick it collects KPIs through an injected collector, wraps them in a timestamped envelope (`KpiMsg`), and publishes the envelope to an MQTT broker on the topic `/<topic>/<clientId>`. The model covers three parts:

- **Configuration resolution** (`publisheroptions.dfy`, `publisher.dfy`):
  - the six-field options record and its builder;
  - `readOptsFromEnv`, which reads options from an environment given as a `map<string, string>`;
  - `mergeOptions`, which merges the environment options with the programmatic ones or throws;
  - the constructor's composition `mergeOptions(readOptsFromEnv(), options)`.

  Java `null` is `Option.None`. A thrown `IllegalArgumentException` is `Result.Failure` carrying a `ConfigError`, and `ConfigError.Message()` returns the exception's exact text.
- **Client-ID validation** (`regex.dfy`, `validity.dfy`, `validator.dfy`):
  - `ValidityChecker`;
  - `Validator.isClientIdValid`, which checks the length first and then whole-string pattern matching (`Matcher.matches`).

  The regular expression is modelled as the fragment the code uses: a bracket expression of character ranges, optionally followed by `+`. It comes with a whole-string match predicate `FullMatch` and a loop-based matcher proved equal to that predicate.
- **One publish tick** (`kpimessage.dfy`, `kpireading.dfy`):
  - `KpiReader.run` and `readSensorKpi` as a pure function. It takes whether the client is connected, what the collector returns (`None` for `null`), the instant read by the envelope constructor, and the JSON serializer (`None` for a `JsonProcessingException`).
  - It returns whether the collector was called and either `NoOp` or `Publish(topic, message)`.

`javaformat.dfy` holds Java's `int`/`long` ranges and the `%d` / `%s` conversions used in the messages and in the topic. `defaults.dfy` holds the compiled-in constants: 0 ms, 5000 ms and 10 s, the ID length 10, and the pattern `[a-zA-Z0-9]`.

The model follows the code as written in three places where it departs from its evident intent. Each has a corrected version next to the as-written one (see Findings):

- The client-ID pattern, as written, matches a single character.
- The optional-field merge copies the environment value on both arms.
- The environment reader fills in defaults for unset optional variables. The documented precedence is environment over arguments, yet argument values never reach the result.

One further behaviour is kept as the code has it and is not treated as a defect: an empty (non-null) KPI collection is published, and only a null one is skipped.

## Model

| member | source | states |
|---|---|---|
| JavaFormat.NatToDecimal | src/main/java/de/othr/mqtt_kpi_publisher/helpers/Validator.java:34 | the `%d` rendering of a non-negative length is a non-empty string of digits; it starts with `0` only for 0, which prints as exactly `0` |
| JavaFormat.DecimalRoundTrip | src/main/java/de/othr/mqtt_kpi_publisher/helpers/Validator.java:34 | reading the printed digits back yields the printed number, so the message names exactly the required length |
| JavaFormat.FormatInt | src/main/java/de/othr/mqtt_kpi_publisher/helpers/Validator.java:34 | `%d` of an `int` starts with `-` exactly for negative values, its digits denote the magnitude, and there is no leading zero: a non-negative value starts with `0` only as `0`, and a negative one never has `0` after the sign |
| JavaFormat.FormatString | src/main/java/de/othr/mqtt_kpi_publisher/kpi/KpiReader.java:79 | `%s` of a null reference prints `null`, otherwise the string itself |
| Regex.ClassContains | src/main/java/de/othr/mqtt_kpi_publisher/helpers/Validator.java:35-36 | the range scan answers true exactly when some range of the bracket expression contains the character |
| Regex.Matches | src/main/java/de/othr/mqtt_kpi_publisher/helpers/Validator.java:35-36 | the loop matcher answers true exactly when the pattern matches the whole input (`Matcher.matches`), not a prefix |
| Validity.Valid | src/main/java/de/othr/mqtt_kpi_publisher/custom_return_vals/ValidityChecker.java:38-40 | `valid()` is positive and carries no message |
| Validity.Invalid | src/main/java/de/othr/mqtt_kpi_publisher/custom_return_vals/ValidityChecker.java:47-49 | `invalid(m)` is negative and carries exactly `m` |
| Validity.EqualsIsValueEquality | src/main/java/de/othr/mqtt_kpi_publisher/custom_return_vals/ValidityChecker.java:60-65 | `equals` is false for null and otherwise holds exactly when validity and message both agree |
| Validity.ValidResultsAreEqual | src/main/java/de/othr/mqtt_kpi_publisher/custom_return_vals/ValidityChecker.java:60-65 | all positive results are equal |
| Validity.InvalidEqualsIff | src/main/java/de/othr/mqtt_kpi_publisher/custom_return_vals/ValidityChecker.java:60-65 | `invalid(a)` equals `invalid(b)` if and only if `a` and `b` are equal |
| Validity.ValidNeverEqualsInvalid | src/main/java/de/othr/mqtt_kpi_publisher/custom_return_vals/ValidityChecker.java:64 | a positive result never equals a negative one, in either direction, whatever the message |
| Validator.IsClientIdValid | src/main/java/de/othr/mqtt_kpi_publisher/helpers/Validator.java:33-38 | valid if and only if the length matches and the whole ID matches the pattern; a wrong length gets the length message whatever the pattern; a right length without a match gets the pattern message |
| Validator.CheckClientId | src/main/java/de/othr/mqtt_kpi_publisher/helpers/Validator.java:33-38 | the executable check, using the loop matcher for `Matcher.matches`, returns exactly the validator's result for every ID, length and pattern |
| Validator.LengthAndPatternMessagesDiffer | src/main/java/de/othr/mqtt_kpi_publisher/helpers/Validator.java:34-37 | the length message and the pattern message never coincide, so the caller can tell which check failed |
| Validator.AlnumRangesAreAlnum | src/main/java/de/othr/mqtt_kpi_publisher/helpers/Defaults.java:26 | the bracket expression `a-zA-Z0-9` contains exactly the ASCII letters and digits |
| Validator.ClientIdPatternText | src/main/java/de/othr/mqtt_kpi_publisher/helpers/Defaults.java:26 | the pattern prints back as `[a-zA-Z0-9]`, the text that appears in the error message |
| Validator.NoClientIdPassesDefaultPolicy | src/main/java/de/othr/mqtt_kpi_publisher/helpers/Validator.java:34-37 | with length 10 and pattern `[a-zA-Z0-9]` every ID is invalid: 10-character IDs get the pattern message, all others the length message |
| Validator.IntendedPolicyAcceptsExactlyAlnum | src/main/java/de/othr/mqtt_kpi_publisher/helpers/Defaults.java:25-26 | with `[a-zA-Z0-9]+` an ID is valid if and only if it is exactly 10 ASCII letters or digits |
| PublisherOptions.NewBuilder | src/main/java/de/othr/mqtt_kpi_publisher/publisher/MqttKpiPublisherOptions.java:125-139 | a new builder holds the three given required values and 0 / 5000 / 10 as its optional values |
| PublisherOptions.SetInitialTaskDelay | src/main/java/de/othr/mqtt_kpi_publisher/publisher/MqttKpiPublisherOptions.java:146-149 | sets the initial delay (possibly to null) and leaves the other five fields unchanged |
| PublisherOptions.SetTaskInterval | src/main/java/de/othr/mqtt_kpi_publisher/publisher/MqttKpiPublisherOptions.java:156-159 | sets the task interval (possibly to null) and leaves the other five fields unchanged |
| PublisherOptions.SetMqttConnectionTimeout | src/main/java/de/othr/mqtt_kpi_publisher/publisher/MqttKpiPublisherOptions.java:166-169 | sets the connection timeout (possibly to null) and leaves the other five fields unchanged |
| PublisherOptions.Build | src/main/java/de/othr/mqtt_kpi_publisher/publisher/MqttKpiPublisherOptions.java:35-42 | the built options' six getters report the builder's six fields |
| PublisherOptions.OptionsEqualsIsValueEquality | src/main/java/de/othr/mqtt_kpi_publisher/publisher/MqttKpiPublisherOptions.java:92-98 | options `equals` is false for null and otherwise is field-wise equality over all six fields |
| PublisherOptions.BuildRespectsEquality | src/main/java/de/othr/mqtt_kpi_publisher/publisher/MqttKpiPublisherOptions.java:180-185 | two builders are equal if and only if the options they build are equal |
| PublisherOptions.LastWriteWins | src/main/java/de/othr/mqtt_kpi_publisher/publisher/MqttKpiPublisherOptions.java:146-169 | two calls to the same setter leave the second value |
| PublisherOptions.SettersCommute | src/main/java/de/othr/mqtt_kpi_publisher/publisher/MqttKpiPublisherOptions.java:146-169 | setters of different fields commute |
| PublisherOptions.BlankOptionsCarryDefaults | src/main/java/de/othr/mqtt_kpi_publisher/publisher/MqttKpiPublisher.java:206 | the stand-in for missing argument options has null required fields and default optional fields |
| Publisher.ReadOptsFromEnv | src/main/java/de/othr/mqtt_kpi_publisher/publisher/MqttKpiPublisher.java:171-192 | the required fields are the raw variables, possibly absent; each optional field is the parsed variable when parsing yields a value, else the default, so none is null |
| Publisher.MergeOptionsWith | src/main/java/de/othr/mqtt_kpi_publisher/publisher/MqttKpiPublisher.java:200-257 | fails when both sources are absent; returns the argument options unchecked when only the environment options are absent; otherwise fails in the order missing client ID, invalid client ID, missing broker URL, missing topic, and succeeds if and only if none applies; on success each required field is the environment value if present, else the argument value, and each optional field is the environment value, or the default when both are null; every failure carries exactly the exception text thrown at :202, :213, :227 or :238, and an invalid client ID carries the validator's message, as thrown at :220 |
| Publisher.MergeOptions | src/main/java/de/othr/mqtt_kpi_publisher/publisher/MqttKpiPublisher.java:200-257 | the merge with the default client-ID policy passed at :219: with both sources absent it fails with the :202 text, with only the environment absent it returns the argument options, and with environment options present it always fails, with a missing or an invalid client ID |
| Publisher.Resolve | src/main/java/de/othr/mqtt_kpi_publisher/publisher/MqttKpiPublisher.java:88 | the constructor's resolution `mergeOptions(readOptsFromEnv(), options)` always fails: with a missing client ID exactly when neither the environment variable nor the argument supplies one, and otherwise with an invalid client ID |
| Publisher.MissingFieldMessagesNameVariable | src/main/java/de/othr/mqtt_kpi_publisher/publisher/MqttKpiPublisher.java:213-238 | the exception text for each missing required field names the environment variable that supplies it: `MQTT_CLIENT_ID` (:213), `MQTT_MSG_BROKER_URL` (:227), `MQTT_TOPIC` (:238) |
| Publisher.InvalidClientIdCarriesValidatorMessage | src/main/java/de/othr/mqtt_kpi_publisher/publisher/MqttKpiPublisher.java:219-220 | a rejected client ID fails with exactly the validator's message |
| Publisher.ResolutionIgnoresArgumentOptionals | src/main/java/de/othr/mqtt_kpi_publisher/publisher/MqttKpiPublisher.java:247-254 | in the composition with the environment reader, a successful result's optional fields are the environment-derived ones and never null; argument values are never used |
| Publisher.ResolveAlwaysFails | src/main/java/de/othr/mqtt_kpi_publisher/publisher/MqttKpiPublisher.java:210-220 | as written, the constructor's resolution fails for every environment and argument: missing client ID, or the pattern message for 10-character IDs and the length message for others |
| Publisher.MergeOptionsWithEnvNeverSucceeds | src/main/java/de/othr/mqtt_kpi_publisher/publisher/MqttKpiPublisher.java:210-220 | as written, every merge with environment options present fails at the client-ID check, so the code after :220 is dead for any input |
| Publisher.MergeOptionsQuirkDropsArgument | src/main/java/de/othr/mqtt_kpi_publisher/publisher/MqttKpiPublisher.java:248 | under the corrected client-ID pattern (the only way to reach :248), environment options with a null delay plus an argument delay of 7 merge to a null delay |
| Publisher.MergeOptionsIntended | src/main/java/de/othr/mqtt_kpi_publisher/publisher/MqttKpiPublisher.java:244-256 | corrected merge: the same failures and required fields as the as-written merge under the corrected pattern, with each optional field taken from the environment, else the argument, else the default |
| Publisher.QuirkFixInvisibleWithEnvOptionals | src/main/java/de/othr/mqtt_kpi_publisher/publisher/MqttKpiPublisher.java:181-188 | when the environment supplies all optional fields, as the environment reader always does, the corrected merge equals the as-written merge run with the corrected pattern (`MergeOptionsWith(IntendedClientIdPattern, …)`) |
| Publisher.ReadEnvVariables | src/main/java/de/othr/mqtt_kpi_publisher/publisher/MqttKpiPublisher.java:171-192 | corrected reader: the required fields are the raw variables, and each optional field is the parser's result for the raw variable, with no default filled in, so it is null whenever parsing yields null |
| Publisher.EnvReaderFillsDefaults | src/main/java/de/othr/mqtt_kpi_publisher/publisher/MqttKpiPublisher.java:181-188 | the as-written reader agrees with the corrected one on the required fields, and replaces each null optional field with the default |
| Publisher.EnvDefaultsShadowArguments | src/main/java/de/othr/mqtt_kpi_publisher/publisher/MqttKpiPublisher.java:181-188 | with `TASK_INTERVAL` unset and an argument interval of 1000, the as-written reader (even with the corrected merge) resolves 5000, while the corrected resolution resolves 1000 |
| Publisher.ResolveIntendedOptionalPrecedence | src/main/java/de/othr/mqtt_kpi_publisher/publisher/MqttKpiPublisher.java:194-198 | corrected resolution: each optional field is the environment's parsed value, else the argument value, else the default |
| Publisher.ResolveIntendedSucceedsIff | src/main/java/de/othr/mqtt_kpi_publisher/publisher/MqttKpiPublisher.java:210-242 | corrected resolution succeeds if and only if the client ID resolves to 10 ASCII letters or digits and the broker URL and topic resolve |
| Publisher.ReaderFor | src/main/java/de/othr/mqtt_kpi_publisher/publisher/MqttKpiPublisher.java:93-98 | the callback's reader exists exactly when the resolved client ID is non-null, and carries the resolved ID and topic |
| Publisher.MergedOptionsYieldReader | src/main/java/de/othr/mqtt_kpi_publisher/publisher/MqttKpiPublisher.java:93-98 | options merged with environment options present always yield a reader, publishing on `/<topic>/<clientId>` |
| Publisher.UncheckedArgumentsReachNullClientId | src/main/java/de/othr/mqtt_kpi_publisher/publisher/MqttKpiPublisher.java:204 | without environment options, argument options with a null client ID pass the merge and make the reader constructor throw |
| Publisher.ExampleDeployment | src/main/java/de/othr/mqtt_kpi_publisher/publisher/MqttKpiPublisher.java:86-98 | for client ID `ABC1234567` and topic `engines`, the as-written resolution fails on the pattern; the corrected one yields the defaults and a tick publishes on `/engines/ABC1234567` |
| KpiMessage.EmptyKpiMsg | src/main/java/de/othr/mqtt_kpi_publisher/kpi/KpiMsg.java:39-40 | the no-argument constructor leaves every reference null and the timestamp zero |
| KpiMessage.NewKpiMsg | src/main/java/de/othr/mqtt_kpi_publisher/kpi/KpiMsg.java:47-53 | the envelope stores the client ID and the KPI collection exactly as given, and both timestamp fields come from the one instant read |
| KpiMessage.TimestampsComeFromOneInstant | src/main/java/de/othr/mqtt_kpi_publisher/kpi/KpiMsg.java:48-50 | an envelope's timestamp pair is the view of the instant it was built at and of no other |
| KpiMessage.SetClientId | src/main/java/de/othr/mqtt_kpi_publisher/kpi/KpiMsg.java:59-61 | sets the client ID and changes no other field |
| KpiMessage.SetUnixTimestamp | src/main/java/de/othr/mqtt_kpi_publisher/kpi/KpiMsg.java:67-69 | sets the epoch timestamp and changes no other field |
| KpiMessage.SetTimestamp | src/main/java/de/othr/mqtt_kpi_publisher/kpi/KpiMsg.java:75-77 | sets the ISO timestamp and changes no other field |
| KpiMessage.SetKpis | src/main/java/de/othr/mqtt_kpi_publisher/kpi/KpiMsg.java:83-85 | sets the KPI collection and changes no other field |
| KpiMessage.SettingOneTimestampBreaksInvariant | src/main/java/de/othr/mqtt_kpi_publisher/kpi/KpiMsg.java:67-69 | changing the epoch timestamp alone keeps the single-instant invariant only if the value is unchanged |
| KpiReading.NewKpiReader | src/main/java/de/othr/mqtt_kpi_publisher/kpi/KpiReader.java:46-52 | construction fails exactly when the client ID is null, and otherwise stores the client ID and the (possibly null) topic |
| KpiReading.PublishTopic | src/main/java/de/othr/mqtt_kpi_publisher/kpi/KpiReader.java:79 | the topic is `/` + topic + `/` + client ID, with a null topic printed as `null` |
| KpiReading.Envelope | src/main/java/de/othr/mqtt_kpi_publisher/kpi/KpiReader.java:95 | the tick's envelope carries the reader's client ID, the collected KPIs unchanged, and the instant's timestamps |
| KpiReading.ReadSensorKpi | src/main/java/de/othr/mqtt_kpi_publisher/kpi/KpiReader.java:90-104 | no message exactly when the collector returns null; otherwise the serialized envelope, or an empty payload when serialization fails |
| KpiReading.Run | src/main/java/de/othr/mqtt_kpi_publisher/kpi/KpiReader.java:58-84 | the collector is called exactly when the client is connected; a publish happens exactly when connected and the collection is non-null, on the reader's topic, with QoS 0, retained, and the serialized envelope or an empty payload |
| KpiReading.EmptyCollectionIsPublished | src/main/java/de/othr/mqtt_kpi_publisher/kpi/KpiReader.java:92-101 | an empty collection is published; a null one is not |
| KpiReading.SerializationFailurePublishesEmpty | src/main/java/de/othr/mqtt_kpi_publisher/kpi/KpiReader.java:94-101 | a serialization failure still publishes, with a zero-length payload, on the usual topic with QoS 0 and retained |
| KpiReading.PublishTopicLevels | src/main/java/de/othr/mqtt_kpi_publisher/kpi/KpiReader.java:79 | when neither the topic nor the client ID contains `/`, the publish topic has exactly the levels empty, topic, client ID |

## Findings

| source | as written | input that shows it | evidently intended | confidence | as-written member | corrected member |
|---|---|---|---|---|---|---|
| src/main/java/de/othr/mqtt_kpi_publisher/helpers/Defaults.java:26 | `Pattern.compile("[a-zA-Z0-9]")` checked with `Matcher.matches` matches exactly one character, while the required length is 10 (Defaults.java:25) | `MQTT_CLIENT_ID=ABC1234567`: resolution throws "Client ID must conform to the pattern [a-zA-Z0-9]", and every other ID fails too, so the publisher can never start | `[a-zA-Z0-9]+`: an ID of 10 ASCII letters or digits passes | high; not executed | Publisher.ResolveAlwaysFails | Validator.IntendedPolicyAcceptsExactlyAlnum |
| src/main/java/de/othr/mqtt_kpi_publisher/publisher/MqttKpiPublisher.java:248 | the arm for "argument value present" sets the environment's value, which is null there (the same at :251 and :254) | with the client-ID pattern corrected: environment options with a null initial delay and argument options with delay 7 merge to a null delay. As written the same input already fails at :220, because the validator rejects every ID | the argument value 7 | medium: the arm is dead as written, first because the validator rejects every client ID (`MergeOptionsWithEnvNeverSucceeds`), then because the environment reader never leaves an optional field null; not executed | Publisher.MergeOptionsQuirkDropsArgument | Publisher.MergeOptionsIntended |
| src/main/java/de/othr/mqtt_kpi_publisher/publisher/MqttKpiPublisher.java:181-188 | `readOptsFromEnv` starts from the builder's defaults, so its optional fields are never null, and the merge never looks at the argument's optional values | `TASK_INTERVAL` unset and argument options with interval 1000: the interval resolves to 5000, even with the pattern and the merge arms corrected | 1000: the merge's documented rule (:198) is that environment variables take precedence over arguments, not that they shadow them with defaults | medium; not executed | Publisher.EnvDefaultsShadowArguments | Publisher.ResolveIntendedOptionalPrecedence |

## Left out

- Broker connection (`connect2MqttMsgBroker`, MqttKpiPublisher.java:135-164): Paho's asynchronous client and callbacks. The tick sees the connection only as its `connected` input.
- Periodic scheduling (MqttKpiPublisher.java:44, 100-103): a fixed-delay executor, which is concurrency and timing. A single tick is modelled, not the sequence of ticks.
- Shutdown hook (MqttKpiPublisher.java:264-288): JVM runtime, threads, and a floating-point grace period.
- Singleton guard (MqttKpiPublisher.java:77-78): static global state.
- `System.getenv` is the map parameter. `Utils.parseIntNullable` / `Utils.parseLongNullable` are function parameters, because `Utils` is not part of this model. `Publisher.ExampleDeployment` and `Publisher.EnvDefaultsShadowArguments` assume that both parsers map a null (unset) variable to null.
- `Instant.now()`, `toEpochMilli()` and `toString()` are replaced by an `Instant` input that holds both views of one reading. The overflow exception of `toEpochMilli` is not modelled.
- Jackson serialization is the `serialize` parameter. The JSON shape and `UnitToIntConverter` are not modelled.
- `Kpi` is the opaque type parameter `K`.
- `hashCode`, `toString`, `KpiReader.equals`, `getClient`/`setClient` and logging: none of them affects a decision.
- KpiReading.Run: the broker's reaction to `publish` is not an input. The exception is caught (KpiReader.java:78-83), so the tick's outcome is the attempted publish whatever the broker does. Unchecked exceptions are not modelled: a `RuntimeException` from `collectKpis()` (:92), from `writeValueAsBytes` (:97) or from `client.publish` (:79) escapes `run()`, and under `scheduleWithFixedDelay` (MqttKpiPublisher.java:100) it cancels every later tick. The model's tick always completes.
- Validator.IsClientIdValid: `String.length()` counts UTF-16 code units; the model counts `char`s. `%d` is rendered with ASCII digits, whatever the default locale.
- Regex.Matches: only bracket expressions of ranges, with an optional `+`, are modelled. Those are the forms the validator is used with.
