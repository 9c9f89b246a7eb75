/** `DirectionStringValidator`: membership in the set of the enum's string
    values. */
module DirectionValidation {
  import opened Wrappers
  import opened Errors
  import opened Directions

  /** The validator's set, in the enum's declaration order (the order
      `Array.from` lists it in an error). */
  const ValidDirections: seq<string> := [Name(NORTH), Name(SOUTH), Name(EAST), Name(WEST)]

  /** `isValidDirectionString`: exact, case-sensitive membership. */
  predicate IsValidDirectionString(value: string) {
    value in ValidDirections
  }

  /** `validateDirectionString`: throws exactly when the value is not a
      direction name, listing every valid name. */
  function ValidateDirectionString(value: string, fieldName: string): (o: Outcome<InvalidArgumentError>)
    ensures o.Pass? <==> IsValidDirectionString(value)
    ensures o.Fail? ==> o.error == InvalidArgumentError(fieldName, value, Some(ValidDirections))
  {
    if !IsValidDirectionString(value) then Fail(InvalidArgumentError(fieldName, value, Some(ValidDirections)))
    else Pass
  }

  /** The valid strings are exactly the names of the four directions. */
  lemma ValidIffName(value: string)
    ensures IsValidDirectionString(value) <==> exists d: Direction :: Name(d) == value
  {
    if IsValidDirectionString(value) {
      var i :| 0 <= i < 4 && ValidDirections[i] == value;
      assert Name(AllDirections[i]) == value;
    }
  }

  /** The set lists the four upper-case names in enum order. */
  lemma ValidDirectionsInOrder()
    ensures ValidDirections == ["NORTH", "SOUTH", "EAST", "WEST"]
    ensures |ValidDirections| == |AllDirections|
    ensures forall i :: 0 <= i < |AllDirections| ==> ValidDirections[i] == Name(AllDirections[i])
  {
  }

  /** Lower case, the empty string and other words are rejected. */
  lemma RejectedStrings()
    ensures !IsValidDirectionString("north") && !IsValidDirectionString("")
    ensures !IsValidDirectionString("UP")
  {
  }
}

/** `DirectionParser.fromString`: upper-case, validate, then read the
    string as a direction. */
module DirectionParsing {
  import opened Wrappers
  import opened Text
  import opened Errors
  import opened Directions
  import opened DirectionValidation

  /** The field name the parser reports. */
  const DirectionField := "direction"

  /** The enum member whose string value is `s`. */
  function DirectionNamed(s: string): (d: Direction)
    requires IsValidDirectionString(s)
    ensures Name(d) == s
  {
    if s == Name(NORTH) then NORTH
    else if s == Name(SOUTH) then SOUTH
    else if s == Name(EAST) then EAST
    else WEST
  }

  /** `fromString`: succeeds exactly when the upper-cased input is a
      direction name, and then the direction's name is that upper-cased
      input; otherwise the validator's error for the upper-cased input. */
  function FromString(direction: string): (r: Result<Direction, InvalidArgumentError>)
    ensures r.Success? <==> IsValidDirectionString(Upper(direction))
    ensures r.Success? ==> Name(r.value) == Upper(direction)
    ensures r.Failure? ==> r.error == InvalidArgumentError(DirectionField, Upper(direction), Some(ValidDirections))
  {
    var upper := Upper(direction);
    match ValidateDirectionString(upper, DirectionField)
    case Fail(e) => Failure(e)
    case Pass => Success(DirectionNamed(upper))
  }

  /** Every direction's own name parses back to that direction. */
  lemma FromStringName(d: Direction)
    ensures FromString(Name(d)) == Success(d)
  {
    assert forall i :: 0 <= i < |Name(d)| ==> IsCapital(Name(d)[i]);
    UpperOfCapitals(Name(d));
    NameInjective(FromString(Name(d)).value, d);
  }

  /** Parsing ignores case: upper-casing first changes nothing. */
  lemma FromStringIgnoresCase(s: string)
    ensures FromString(Upper(s)) == FromString(s)
  {
    UpperIdempotent(s);
  }

  /** "north", "NoRtH" and "NORTH" all give NORTH. */
  lemma MixedCaseNorth()
    ensures FromString("north") == Success(NORTH)
    ensures FromString("NoRtH") == Success(NORTH)
    ensures FromString("NORTH") == Success(NORTH)
  {
    assert Upper("north") == "NORTH";
    assert Upper("NoRtH") == "NORTH";
    FromStringName(NORTH);
  }

  /** An unknown word fails with the error that lists the valid names. */
  lemma UnknownWord()
    ensures FromString("up") == Failure(InvalidArgumentError("direction", "UP", Some(["NORTH", "SOUTH", "EAST", "WEST"])))
  {
    assert Upper("up") == "UP";
    ValidDirectionsInOrder();
  }
}
