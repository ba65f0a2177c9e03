/** The two-valued outcome of a validation, with an error message on the negative side. */
module Validity {
  import opened Wrappers

  /** `errMsg` is a Java `String` field and stays null for a positive result. */
  datatype ValidityChecker = ValidityChecker(isValid: bool, errMsg: Option<string>)

  /** `ValidityChecker.valid()`. */
  function Valid(): (r: ValidityChecker)
    ensures r.isValid && r.errMsg.None?
  {
    ValidityChecker(true, None)
  }

  /** `ValidityChecker.invalid(errMsg)`; the message may itself be null. */
  function Invalid(errMsg: Option<string>): (r: ValidityChecker)
    ensures !r.isValid && r.errMsg == errMsg
  {
    ValidityChecker(false, errMsg)
  }

  /** `equals(o)`: false for null, otherwise the pair (isValid, errMsg) compared with `Objects.equals`. */
  predicate Equals(a: ValidityChecker, o: Option<ValidityChecker>) {
    match o
    case None => false
    case Some(b) => a.isValid == b.isValid && a.errMsg == b.errMsg
  }

  /** Java equality on non-null checkers coincides with value equality of the model. */
  lemma EqualsIsValueEquality(a: ValidityChecker, b: ValidityChecker)
    ensures Equals(a, Some(b)) <==> a == b
    ensures !Equals(a, None)
  {
  }

  /** Every positive result equals every other one. */
  lemma ValidResultsAreEqual()
    ensures Equals(Valid(), Some(Valid()))
  {
  }

  /** Two negative results are equal exactly when their messages are. */
  lemma InvalidEqualsIff(m1: Option<string>, m2: Option<string>)
    ensures Equals(Invalid(m1), Some(Invalid(m2))) <==> m1 == m2
  {
  }

  /** No positive result equals a negative one, whatever the message. */
  lemma ValidNeverEqualsInvalid(m: Option<string>)
    ensures !Equals(Valid(), Some(Invalid(m)))
    ensures !Equals(Invalid(m), Some(Valid()))
  {
  }
}
