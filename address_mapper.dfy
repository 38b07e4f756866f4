/**
 * `AddressMapper`: converts between the stored `Address` record and the
 * `AddressDTO` object. The type travels as its name; a null type is stored
 * as `RESIDENTIAL`, and a missing or unknown name is read back as
 * `RESIDENTIAL`. Every other field is copied unchanged.
 */
module AddressMapping {
  import opened Wrappers
  import opened JavaText
  import opened AddressTypes
  import opened Storage
  import opened AddressDtos

  /** The contents `fromRealm` gives a new object for the record `a`. */
  function Decode(a: Address): (f: AddressFields)
    ensures f.addressType == Some(FromString(a.addressType))
    ensures a.addressType.None? ==> f.addressType == Some(Residential)
  {
    AddressFields(a.id, Some(FromString(a.addressType)), a.street, a.number, a.complement,
                  a.neighborhood, a.zipCode, a.city, a.state)
  }

  /** The record `toRealm` builds from an object whose contents are `f`. */
  function Encode(f: AddressFields): (a: Address)
    ensures a.addressType.Some?
    ensures f.addressType.None? ==> a.addressType == Some("RESIDENTIAL")
    ensures FromString(a.addressType) == f.addressType.GetOr(Residential)
  {
    FromStringOfName(f.addressType.GetOr(Residential));
    Address(f.id, Some(f.addressType.GetOr(Residential).Name()), f.street, f.number, f.complement,
            f.neighborhood, f.zipCode, f.city, f.state)
  }

  /** Storing an object and reading it back restores it, a null type becoming `RESIDENTIAL`. */
  lemma DecodeEncode(f: AddressFields)
    ensures Decode(Encode(f)) == f.(addressType := Some(f.addressType.GetOr(Residential)))
  {
  }

  /**
   * Reading a record and storing it back restores it, except that the type
   * name is normalised to the name of the decoded type.
   */
  lemma EncodeDecode(a: Address)
    ensures Encode(Decode(a)) == a.(addressType := Some(FromString(a.addressType).Name()))
  {
  }

  /** A record whose type name is a valid name survives a read and a store unchanged. */
  lemma EncodeDecodeOfName(a: Address, t: AddressType)
    requires a.addressType == Some(t.Name())
    ensures Encode(Decode(a)) == a
  {
    FromStringOfName(t);
  }

  /** `dto` is what `fromRealm` makes of `a`: null exactly for null, otherwise the decoded contents. */
  ghost predicate DecodedAs(dto: AddressDTO?, a: Option<Address>)
    reads dto
  {
    (dto == null <==> a.None?) && (dto != null ==> dto.Fields() == Decode(a.value))
  }

  /** `a` is what `toRealm` makes of `dto`. */
  ghost predicate EncodedAs(a: Option<Address>, dto: AddressDTO?)
    reads dto
  {
    (dto == null <==> a.None?) && (dto != null ==> a.value == Encode(dto.Fields()))
  }

  /** `fromRealm(Address)`: null for null, otherwise a new object filled in setter by setter. */
  method FromRealm(address: Option<Address>) returns (dto: AddressDTO?)
    ensures DecodedAs(dto, address)
    ensures dto != null ==> fresh(dto)
  {
    if address.None? {
      return null;
    }
    var a := address.value;
    dto := new AddressDTO();
    dto.SetId(a.id);
    dto.SetAddressType(Some(FromString(a.addressType)));
    dto.SetStreet(a.street);
    dto.SetNumber(a.number);
    dto.SetComplement(a.complement);
    dto.SetNeighborhood(a.neighborhood);
    dto.SetZipCode(a.zipCode);
    dto.SetCity(a.city);
    dto.SetState(a.state);
  }

  /** `fromRealm(Iterable<Address>)`: null for null, otherwise one new object per record, in order. */
  method FromRealmList(addresses: Option<seq<Option<Address>>>) returns (dtos: Option<seq<AddressDTO?>>)
    ensures addresses.None? <==> dtos.None?
    ensures dtos.Some? ==> |dtos.value| == |addresses.value|
    ensures dtos.Some? ==> forall i :: 0 <= i < |dtos.value| ==> DecodedAs(dtos.value[i], addresses.value[i])
    ensures dtos.Some? ==> forall i :: 0 <= i < |dtos.value| && dtos.value[i] != null ==> fresh(dtos.value[i])
  {
    if addresses.None? {
      return None;
    }
    var records := addresses.value;
    var list: seq<AddressDTO?> := [];
    for i := 0 to |records|
      invariant |list| == i
      invariant forall j :: 0 <= j < i ==> DecodedAs(list[j], records[j])
      invariant forall j :: 0 <= j < i && list[j] != null ==> fresh(list[j])
    {
      var dto := FromRealm(records[i]);
      list := list + [dto];
    }
    dtos := Some(list);
  }

  /** `toRealm`: null for null, otherwise a new record filled in setter by setter. */
  method ToRealm(dto: AddressDTO?) returns (address: Option<Address>)
    ensures EncodedAs(address, dto)
  {
    if dto == null {
      return None;
    }
    var a := NewAddress;
    a := a.(id := dto.id);
    a := a.(addressType := Some(if dto.addressType.Some? then dto.addressType.value.Name() else Residential.Name()));
    a := a.(street := dto.street);
    a := a.(number := dto.number);
    a := a.(complement := dto.complement);
    a := a.(neighborhood := dto.neighborhood);
    a := a.(zipCode := dto.zipCode);
    a := a.(city := dto.city);
    a := a.(state := dto.state);
    address := Some(a);
  }
}
