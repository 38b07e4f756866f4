/**
 * The kind of a person (`PersonType`): a natural person, identified by a
 * CPF, or a legal one, identified by a CNPJ. Spinners list the kinds in
 * declaration order, so a kind and its spinner position convert both ways.
 */
module PersonTypes {
  import opened Wrappers
  import opened JavaText

  datatype PersonType = Physical | Legal
  {
    /** The constant's name, which `name()` returns and `valueOf` accepts. */
    function Name(): string {
      match this
      case Physical => "PHYSICAL"
      case Legal => "LEGAL"
    }

    /** `getDisplayName`. */
    function DisplayName(): string {
      match this
      case Physical => "Pessoa Física"
      case Legal => "Pessoa Jurídica"
    }

    /** `toSpinnerPosition`: scans `values()` for this kind. */
    method ToSpinnerPosition() returns (position: int)
      ensures 0 <= position < |Values| && Values[position] == this
    {
      var values := Values;
      ValuesAreComplete(this);
      assert values[0..] == values;
      var i := 0;
      while i < |values|
        invariant 0 <= i <= |values|
        invariant this in values[i..]
      {
        if this == values[i] {
          return i;
        }
        i := i + 1;
      }
      assert false;
    }
  }

  /** `values()`: the kinds in declaration order. */
  const Values: seq<PersonType> := [Physical, Legal]

  /** Every kind is listed. */
  lemma ValuesAreComplete(t: PersonType)
    ensures t in Values
  {
  }

  /** No kind is listed twice, so a kind has exactly one spinner position. */
  lemma SpinnerPositionUnique(t: PersonType, p: int, q: int)
    requires 0 <= p < |Values| && 0 <= q < |Values|
    requires Values[p] == t && Values[q] == t
    ensures p == q
  {
  }

  /**
   * `fromString`: the kind whose name is exactly `typeStr`; `PHYSICAL` for
   * null and for any other string (the exception `valueOf` throws is caught).
   */
  function FromString(typeStr: JString): (t: PersonType)
    ensures t == Legal <==> typeStr == Some("LEGAL")
  {
    if typeStr.None? then Physical
    else if typeStr.value == "PHYSICAL" then Physical
    else if typeStr.value == "LEGAL" then Legal
    else Physical
  }

  /** `fromString(t.name())` gives `t` back. */
  lemma FromStringOfName(t: PersonType)
    ensures FromString(Some(t.Name())) == t
  {
  }

  /** `fromSpinnerPosition`: the kind at a valid position, otherwise `PHYSICAL`. */
  function FromSpinnerPosition(position: int): (t: PersonType)
    ensures 0 <= position < |Values| ==> t == Values[position]
    ensures !(0 <= position < |Values|) ==> t == Physical
  {
    if position < 0 || position >= |Values| then Physical else Values[position]
  }

  /** `getDisplayNames`: a new array of the display names, in spinner order. */
  method GetDisplayNames() returns (displayNames: array<string>)
    ensures fresh(displayNames) && displayNames.Length == |Values|
    ensures forall i :: 0 <= i < |Values| ==> displayNames[i] == Values[i].DisplayName()
  {
    var values := Values;
    displayNames := new string[|values|];
    for i := 0 to |values|
      invariant forall j :: 0 <= j < i ==> displayNames[j] == values[j].DisplayName()
    {
      displayNames[i] := values[i].DisplayName();
    }
  }
}
