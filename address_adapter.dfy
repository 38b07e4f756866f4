/**
 * The address list adapter (`AddressAdapter`): its backing list, the
 * identity and content comparisons it gives the list differ, and the text
 * each address row shows.
 */
module AddressAdapters {
  import opened Wrappers
  import opened JavaText
  import opened AddressTypes
  import opened AddressDtos
  import opened ListEdits
  import MaskUtil

  // ---------------------------------------------------------------------
  // Comparisons

  /** `areItemsTheSame`: the old item has an id and the new item has the same id. */
  predicate AreItemsTheSame(oldItem: AddressDTO, newItem: AddressDTO)
    reads oldItem, newItem
  {
    oldItem.id.Some? && oldItem.id == newItem.id
  }

  /**
   * `areContentsTheSame`: every text field equal, two nulls counting as
   * equal, and the same type.
   */
  predicate AreContentsTheSame(oldItem: AddressDTO, newItem: AddressDTO)
    reads oldItem, newItem
  {
    && (if oldItem.street.None? then newItem.street.None? else oldItem.street == newItem.street)
    && (if oldItem.number.None? then newItem.number.None? else oldItem.number == newItem.number)
    && (if oldItem.complement.None? then newItem.complement.None? else oldItem.complement == newItem.complement)
    && (if oldItem.neighborhood.None? then newItem.neighborhood.None? else oldItem.neighborhood == newItem.neighborhood)
    && (if oldItem.zipCode.None? then newItem.zipCode.None? else oldItem.zipCode == newItem.zipCode)
    && (if oldItem.city.None? then newItem.city.None? else oldItem.city == newItem.city)
    && (if oldItem.state.None? then newItem.state.None? else oldItem.state == newItem.state)
    && oldItem.addressType == newItem.addressType
  }

  /** Items that are the same item also compare as the same item the other way round, when the new one has an id. */
  lemma ItemsTheSameSymmetric(a: AddressDTO, b: AddressDTO)
    requires AreItemsTheSame(a, b)
    ensures AreItemsTheSame(b, a)
  {
  }

  /** An item without an id is never the same item as anything. */
  lemma ItemWithoutIdIsNew(a: AddressDTO, b: AddressDTO)
    requires a.id.None?
    ensures !AreItemsTheSame(a, b)
  {
  }

  /** Content comparison is equality of everything but the id. */
  lemma ContentsTheSameIff(a: AddressDTO, b: AddressDTO)
    ensures AreContentsTheSame(a, b) <==> a.Fields().(id := None) == b.Fields().(id := None)
  {
  }

  lemma ContentsTheSameReflexive(a: AddressDTO)
    ensures AreContentsTheSame(a, a)
  {
  }

  lemma ContentsTheSameSymmetric(a: AddressDTO, b: AddressDTO)
    requires AreContentsTheSame(a, b)
    ensures AreContentsTheSame(b, a)
  {
  }

  // ---------------------------------------------------------------------
  // Row text

  /**
   * The street line: the street, then ", " and the number when there is a
   * number; a null field counts as empty.
   */
  function StreetLine(street: JString, number: JString): (line: string)
    ensures |line| >= |OrEmpty(street)| && line[..|OrEmpty(street)|] == OrEmpty(street)
    ensures IsEmpty(number) ==> line == OrEmpty(street)
    ensures !IsEmpty(number) ==> line[|OrEmpty(street)|..] == ", " + number.value
  {
    var s := OrEmpty(street);
    var n := OrEmpty(number);
    s + (if |n| == 0 then "" else ", " + n)
  }

  /**
   * The city/state text: "city/state" when both are present, otherwise
   * whichever is present, "" when neither is.
   */
  function CityState(city: string, state: string): string {
    if |city| > 0 then (if |state| > 0 then city + "/" + state else city)
    else state
  }

  /**
   * The city/state text is empty only when both parts are; it starts with
   * the city and ends with the state, with "/" between them when both are
   * present.
   */
  lemma CityStateShape(city: string, state: string)
    ensures var text := CityState(city, state);
      && (|text| == 0 <==> |city| == 0 && |state| == 0)
      && (|city| > 0 ==> |text| >= |city| && text[..|city|] == city)
      && (|city| > 0 && |state| > 0 ==>
            |text| == |city| + 1 + |state| && text[|city|] == '/' && text[|city| + 1..] == state)
      && (|city| > 0 && |state| == 0 ==> text == city)
      && (|city| == 0 ==> text == state)
  {
  }

  /** The city/state text, built as `bind` builds it. */
  method CityStateText(city: JString, state: JString) returns (cityState: string)
    ensures cityState == CityState(OrEmpty(city), OrEmpty(state))
  {
    var c := OrEmpty(city);
    var s := OrEmpty(state);
    cityState := "";
    if |c| != 0 {
      cityState := c;
      if |s| != 0 {
        cityState := cityState + "/" + s;
      }
    } else if |s| != 0 {
      cityState := s;
    }
  }

  /**
   * The zip line: hidden (`None`) for a null or empty zip code; otherwise
   * "CEP: " and the zip code, with a hyphen after the fifth character when
   * it has exactly eight.
   */
  function ZipLine(zipCode: JString): (line: Option<string>)
    ensures line.None? <==> IsEmpty(zipCode)
    ensures line.Some? ==> |line.value| > 5 && line.value[..5] == "CEP: "
    ensures line.Some? && |zipCode.value| == 8 ==>
              |line.value| == 14 && line.value[10] == '-' && line.value[5..10] + line.value[11..] == zipCode.value
    ensures line.Some? && |zipCode.value| != 8 ==> line.value[5..] == zipCode.value
  {
    if zipCode.None? || |zipCode.value| == 0 then None
    else
      var z := zipCode.value;
      if |z| == 8 then
        var r := "CEP: " + z[..5] + "-" + z[5..];
        assert r[5..10] == z[..5] && r[11..] == z[5..];
        assert z[..5] + z[5..] == z;
        Some(r)
      else
        Some("CEP: " + z)
  }

  /** For a zip code of digits only, the row shows what `formatZipCode` gives. */
  lemma ZipLineMatchesFormat(zipCode: JString)
    requires !IsEmpty(zipCode) && AllDigits(zipCode.value)
    ensures ZipLine(zipCode) == Some("CEP: " + MaskUtil.FormatZipCode(zipCode))
  {
    var z := zipCode.value;
    MaskUtil.UnmaskKeepsDigits(z);
    if |z| == 8 {
      assert "CEP: " + z[..5] + "-" + z[5..] == "CEP: " + (z[..5] + "-" + z[5..]);
    }
  }

  // ---------------------------------------------------------------------
  // Backing list

  class AddressAdapter {
    var addresses: seq<AddressDTO?>

    constructor()
      ensures addresses == []
    {
      addresses := [];
    }

    /** `updateList`: the backing list becomes a copy of `newList`; null empties it. */
    method UpdateList(newList: Option<seq<AddressDTO?>>)
      modifies this`addresses
      ensures addresses == newList.GetOr([])
    {
      addresses := [];
      if newList.Some? {
        addresses := addresses + newList.value;
      }
    }

    /** `removeAddress`: removes the entry at an existing position; otherwise nothing changes. */
    method RemoveAddress(position: int)
      modifies this`addresses
      ensures RemovedAt(old(addresses), position, addresses)
    {
      if 0 <= position < |addresses| {
        addresses := addresses[..position] + addresses[position + 1..];
      }
    }

    /** `addAddress`: appends. */
    method AddAddress(address: AddressDTO?)
      modifies this`addresses
      ensures addresses == old(addresses) + [address]
    {
      addresses := addresses + [address];
    }
  }
}
