/** The numeric guards that the `Position` and `Table` constructors run:
    `NonNegativeValidator`, `PositiveValidator`, and the two composite
    validators built from them. A guard either passes or throws an
    `InvalidArgumentError`, which is modelled as an `Outcome`. */
module NumericValidation {
  import opened Wrappers
  import opened Text
  import opened Errors

  /** The valid-values entry of a non-negative guard's error. */
  const NonNegativeValues := "non-negative values"

  /** The valid-values entry of a positive guard's error. */
  const PositiveValues := "positive values"

  /** `validateNonNegative`: throws exactly for negative values, naming the
      field and printing the value. */
  function ValidateNonNegative(value: int, fieldName: string): (o: Outcome<InvalidArgumentError>)
    ensures o.Pass? <==> value >= 0
    ensures o.Fail? ==> o.error.argumentName == fieldName && o.error.value == IntToString(value)
    ensures o.Fail? ==>
      o.error.Message() == "Invalid " + fieldName + ": " + IntToString(value) + ". Valid values are: " + NonNegativeValues
  {
    if value < 0 then Fail(InvalidArgumentError(fieldName, IntToString(value), Some([NonNegativeValues])))
    else Pass
  }

  /** `validatePositive`: throws exactly for zero and negative values. */
  function ValidatePositive(value: int, fieldName: string): (o: Outcome<InvalidArgumentError>)
    ensures o.Pass? <==> value > 0
    ensures o.Fail? ==> o.error.argumentName == fieldName && o.error.value == IntToString(value)
    ensures o.Fail? ==>
      o.error.Message() == "Invalid " + fieldName + ": " + IntToString(value) + ". Valid values are: " + PositiveValues
  {
    if value <= 0 then Fail(InvalidArgumentError(fieldName, IntToString(value), Some([PositiveValues])))
    else Pass
  }

  /** `validateCoordinate`: the integer check (always passed by an `int`)
      followed by the non-negative check on the same field name, whose
      failure is passed on unchanged. */
  function ValidateCoordinate(value: int, coordinateName: string): (o: Outcome<InvalidArgumentError>)
    ensures o.Pass? <==> value >= 0
    ensures o == ValidateNonNegative(value, coordinateName)
  {
    ValidateNonNegative(value, coordinateName)
  }

  /** `validateDimension`: the integer check followed by the positive check. */
  function ValidateDimension(value: int, dimensionName: string): (o: Outcome<InvalidArgumentError>)
    ensures o.Pass? <==> value > 0
    ensures o == ValidatePositive(value, dimensionName)
  {
    ValidatePositive(value, dimensionName)
  }

  /** Zero is a valid coordinate but not a valid dimension. */
  lemma ZeroBoundary(name: string)
    ensures ValidateNonNegative(0, name) == Pass
    ensures ValidatePositive(0, name) == Fail(InvalidArgumentError(name, "0", Some([PositiveValues])))
  {
    assert IntToString(0) == "0";
  }
}
