/**
 * The kind of an address (`AddressType`): residential or commercial.
 * Spinners list the kinds in declaration order, so a kind and its spinner
 * position convert both ways.
 */
module AddressTypes {
  import opened Wrappers
  import opened JavaText

  datatype AddressType = Residential | Commercial
  {
    /** The constant's name, which `name()` returns and `valueOf` accepts. */
    function Name(): string {
      match this
      case Residential => "RESIDENTIAL"
      case Commercial => "COMMERCIAL"
    }

    /** `getDisplayName`. */
    function DisplayName(): string {
      match this
      case Residential => "Residencial"
      case Commercial => "Comercial"
    }

    /** `toSpinnerPosition`: scans `values()` for this kind. */
    method ToSpinnerPosition() returns (position: int)
      ensures 0 <= position < |Values| && Values[position] == this
    {
      var values := Values;
      ValuesAreComplete(this);
      assert values[0..] == values;
      var i := 0;
      while i < |values|
        invariant 0 <= i <= |values|
        invariant this in values[i..]
      {
        if this == values[i] {
          return i;
        }
        i := i + 1;
      }
      assert false;
    }
  }

  /** `values()`: the kinds in declaration order. */
  const Values: seq<AddressType> := [Residential, Commercial]

  /** Every kind is listed. */
  lemma ValuesAreComplete(t: AddressType)
    ensures t in Values
  {
  }

  /** No kind is listed twice, so a kind has exactly one spinner position. */
  lemma SpinnerPositionUnique(t: AddressType, p: int, q: int)
    requires 0 <= p < |Values| && 0 <= q < |Values|
    requires Values[p] == t && Values[q] == t
    ensures p == q
  {
  }

  /**
   * `fromString`: the kind whose name is exactly `typeStr`; `RESIDENTIAL` for
   * null and for any other string (the exception `valueOf` throws is caught).
   */
  function FromString(typeStr: JString): (t: AddressType)
    ensures t == Commercial <==> typeStr == Some("COMMERCIAL")
  {
    if typeStr.None? then Residential
    else if typeStr.value == "RESIDENTIAL" then Residential
    else if typeStr.value == "COMMERCIAL" then Commercial
    else Residential
  }

  /** `fromString(t.name())` gives `t` back. */
  lemma FromStringOfName(t: AddressType)
    ensures FromString(Some(t.Name())) == t
  {
  }

  /** `fromSpinnerPosition`: the kind at a valid position, otherwise `RESIDENTIAL`. */
  function FromSpinnerPosition(position: int): (t: AddressType)
    ensures 0 <= position < |Values| ==> t == Values[position]
    ensures !(0 <= position < |Values|) ==> t == Residential
  {
    if position < 0 || position >= |Values| then Residential else Values[position]
  }

  /** `getDisplayNames`: a new array of the display names, in spinner order. */
  method GetDisplayNames() returns (displayNames: array<string>)
    ensures fresh(displayNames) && displayNames.Length == |Values|
    ensures forall i :: 0 <= i < |Values| ==> displayNames[i] == Values[i].DisplayName()
  {
    var values := Values;
    displayNames := new string[|values|];
    for i := 0 to |values|
      invariant forall j :: 0 <= j < i ==> displayNames[j] == values[j].DisplayName()
    {
      displayNames[i] := values[i].DisplayName();
    }
  }
}
