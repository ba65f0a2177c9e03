/** The client-ID check: an exact length first, then a whole-string pattern match. */
module Validator {
  import opened Wrappers
  import opened JavaFormat
  import opened Regex
  import opened Validity
  import opened Defaults

  predicate IsAlnum(c: char) {
    'a' <= c <= 'z' || 'A' <= c <= 'Z' || '0' <= c <= '9'
  }

  function LengthMessage(strLength: Int32): string {
    "Client ID must be exactly " + FormatInt(strLength) + " characters long"
  }

  function PatternMessage(pattern: Pattern): string {
    "Client ID must conform to the pattern " + Text(pattern)
  }

  /** `Validator.isClientIdValid(clientId, strLength, pattern)`. */
  function IsClientIdValid(clientId: string, strLength: Int32, pattern: Pattern): (r: ValidityChecker)
    ensures r.isValid <==> |clientId| == strLength && FullMatch(pattern, clientId)
    ensures r.isValid ==> r == Valid()
    ensures |clientId| != strLength ==> r == Invalid(Some(LengthMessage(strLength)))
    ensures |clientId| == strLength && !FullMatch(pattern, clientId) ==> r == Invalid(Some(PatternMessage(pattern)))
  {
    if |clientId| != strLength then Invalid(Some(LengthMessage(strLength)))
    else if FullMatch(pattern, clientId) then Valid()
    else Invalid(Some(PatternMessage(pattern)))
  }

  /**
   * The executable check: the same length test first, then the loop matcher in place of
   * `Matcher.matches`; it returns exactly what the validator specifies.
   */
  method CheckClientId(clientId: string, strLength: Int32, pattern: Pattern) returns (r: ValidityChecker)
    ensures r == IsClientIdValid(clientId, strLength, pattern)
  {
    if |clientId| != strLength {
      return Invalid(Some(LengthMessage(strLength)));
    }
    var matches := Matches(pattern, clientId);
    if matches {
      r := Valid();
    } else {
      r := Invalid(Some(PatternMessage(pattern)));
    }
  }

  /** The two failure messages can be told apart, so the caller sees which check failed first. */
  lemma LengthAndPatternMessagesDiffer(strLength: Int32, pattern: Pattern)
    ensures LengthMessage(strLength) != PatternMessage(pattern)
  {
    assert LengthMessage(strLength)[15] == 'b';
    assert PatternMessage(pattern)[15] == 'c';
  }

  /** The bracket expression of the default pattern contains exactly the ASCII letters and digits. */
  lemma AlnumRangesAreAlnum(c: char)
    ensures InClass(AlnumRanges, c) <==> IsAlnum(c)
  {
    if 'a' <= c <= 'z' {
      assert AlnumRanges[0].lo <= c <= AlnumRanges[0].hi;
    } else if 'A' <= c <= 'Z' {
      assert AlnumRanges[1].lo <= c <= AlnumRanges[1].hi;
    } else if '0' <= c <= '9' {
      assert AlnumRanges[2].lo <= c <= AlnumRanges[2].hi;
    }
  }

  /** The pattern text in the message is the one the code compiles. */
  lemma ClientIdPatternText()
    ensures Text(ClientIdPattern) == "[a-zA-Z0-9]"
  {
  }

  /**
   * As written, the default policy (10 characters, `[a-zA-Z0-9]`) rejects every ID:
   * the pattern matches a single character only, and a single character is never 10 long.
   * An ID of the right length gets the pattern message, any other the length message.
   */
  lemma NoClientIdPassesDefaultPolicy(clientId: string)
    ensures !IsClientIdValid(clientId, CharsClientId, ClientIdPattern).isValid
    ensures |clientId| == 10 ==>
      IsClientIdValid(clientId, CharsClientId, ClientIdPattern)
        == Invalid(Some("Client ID must conform to the pattern [a-zA-Z0-9]"))
    ensures |clientId| != 10 ==>
      IsClientIdValid(clientId, CharsClientId, ClientIdPattern)
        == Invalid(Some("Client ID must be exactly 10 characters long"))
  {
    ClientIdPatternText();
    var r := IsClientIdValid(clientId, CharsClientId, ClientIdPattern);
    if |clientId| == 10 {
      assert !FullMatch(ClientIdPattern, clientId);
      assert PatternMessage(ClientIdPattern) == "Client ID must conform to the pattern " + "[a-zA-Z0-9]";
      assert r == Invalid(Some(PatternMessage(ClientIdPattern)));
      assert "Client ID must conform to the pattern " + "[a-zA-Z0-9]" == "Client ID must conform to the pattern [a-zA-Z0-9]";
    } else {
      assert NatToDecimal(10) == "1" + "0";
      assert LengthMessage(CharsClientId) == "Client ID must be exactly " + "10" + " characters long";
      assert r == Invalid(Some(LengthMessage(CharsClientId)));
      assert "Client ID must be exactly " + "10" + " characters long" == "Client ID must be exactly 10 characters long";
    }
  }

  /** `[a-zA-Z0-9]+`: the pattern the length-10 alphanumeric policy evidently calls for. */
  const IntendedClientIdPattern: Pattern := Pattern(AlnumRanges, true)

  /** Under the corrected pattern an ID passes exactly when it is 10 ASCII letters or digits. */
  lemma IntendedPolicyAcceptsExactlyAlnum(clientId: string)
    ensures IsClientIdValid(clientId, CharsClientId, IntendedClientIdPattern).isValid
      <==> |clientId| == 10 && forall i :: 0 <= i < |clientId| ==> IsAlnum(clientId[i])
  {
    forall i | 0 <= i < |clientId| {
      AlnumRangesAreAlnum(clientId[i]);
    }
  }
}
