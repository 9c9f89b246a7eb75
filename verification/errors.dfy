/** The simulator's only error class, `InvalidArgumentError`, thrown by the
    constructor guards and the direction validator. */
module Errors {
  import opened Wrappers
  import opened Text

  /** The `name` every `InvalidArgumentError` carries. */
  const InvalidArgumentErrorName := "InvalidArgumentError"

  /** The separator between the listed valid values. */
  const ListSeparator := ", "

  /** An `InvalidArgumentError`: which argument was wrong, its value as it
      prints, and the valid values, when the thrower lists them. */
  datatype InvalidArgumentError = InvalidArgumentError(
    argumentName: string,
    value: string,
    validValues: Option<seq<string>>)
  {
    /** The error's `name` property. */
    function Name(): (n: string)
      ensures n == InvalidArgumentErrorName
    {
      InvalidArgumentErrorName
    }

    /** The part of the message that is always present. */
    function Head(): string {
      "Invalid " + argumentName + ": " + value
    }

    /** The error's `message`: the head, followed by the joined list of valid
        values only when a non-empty list was given. */
    function Message(): (m: string)
      ensures Head() <= m
      ensures m == Head() <==> validValues.None? || validValues.value == []
      ensures m != Head() ==> m == Head() + ". Valid values are: " + Join(validValues.value, ListSeparator)
    {
      if validValues.Some? && |validValues.value| > 0 then
        Head() + ". Valid values are: " + Join(validValues.value, ListSeparator)
      else
        Head()
    }
  }

  /** The four direction names joined as an error message lists them. */
  lemma JoinDirectionNames()
    ensures Join(["NORTH", "SOUTH", "EAST", "WEST"], ListSeparator) == "NORTH, SOUTH, EAST, WEST"
  {
    var names := ["NORTH", "SOUTH", "EAST", "WEST"];
    assert Join(names[3..], ListSeparator) == "WEST";
    assert Join(names[2..], ListSeparator) == "EAST, WEST";
    assert Join(names[1..], ListSeparator) == "SOUTH, EAST, WEST";
  }

  /** The example a direction error produces. */
  lemma DirectionErrorMessage()
    ensures InvalidArgumentError("direction", "INVALID", Some(["NORTH", "SOUTH", "EAST", "WEST"])).Message()
         == "Invalid direction: INVALID" + ". Valid values are: " + "NORTH, SOUTH, EAST, WEST"
  {
    var e := InvalidArgumentError("direction", "INVALID", Some(["NORTH", "SOUTH", "EAST", "WEST"]));
    assert e.Head() == "Invalid direction: INVALID";
    JoinDirectionNames();
  }

  /** Without a list of valid values the message is the head alone. */
  lemma PlainErrorMessage()
    ensures InvalidArgumentError("testArg", "invalidValue", None).Message() == "Invalid testArg: invalidValue"
  {
  }
}
