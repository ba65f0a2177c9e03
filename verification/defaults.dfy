/**
 * Compiled-in defaults. The root `Defaults` class (used by the options builder) and
 * the helpers `Defaults` class (used by the merge) carry the same three timing values;
 * the latter adds the client-ID length and pattern.
 */
module Defaults {
  import opened JavaFormat
  import opened Regex

  const InitialTaskDelay: Int64 := 0
  const TaskInterval: Int64 := 5000
  const MqttConnectionTimeout: Int32 := 10

  const CharsClientId: Int32 := 10

  /** `a-z`, `A-Z`, `0-9`. */
  const AlnumRanges: seq<CharRange> := [CharRange('a', 'z'), CharRange('A', 'Z'), CharRange('0', '9')]

  /** `Pattern.compile("[a-zA-Z0-9]")`: one alphanumeric character, no quantifier. */
  const ClientIdPattern: Pattern := Pattern(AlnumRanges, false)
}
