/**
 * `AddressDTO`: the mutable address object the form and the adapters work
 * on. Every field is a nullable reference; the type is the `AddressType`
 * enum, which may itself be null.
 */
module AddressDtos {
  import opened Wrappers
  import opened JavaText
  import opened AddressTypes

  /** The contents of an address object at one moment, as a value. */
  datatype AddressFields = AddressFields(
    id: JString,
    addressType: Option<AddressType>,
    street: JString,
    number: JString,
    complement: JString,
    neighborhood: JString,
    zipCode: JString,
    city: JString,
    state: JString)

  class AddressDTO {
    var id: JString
    var addressType: Option<AddressType>
    var street: JString
    var number: JString
    var complement: JString
    var neighborhood: JString
    var zipCode: JString
    var city: JString
    var state: JString

    /** A new address is residential, with every string field null. */
    constructor()
      ensures Fields() == AddressFields(None, Some(Residential), None, None, None, None, None, None, None)
    {
      addressType := Some(Residential);
      id, street, number, complement := None, None, None, None;
      neighborhood, zipCode, city, state := None, None, None, None;
    }

    /** The object's current contents. */
    function Fields(): AddressFields
      reads this
    {
      AddressFields(id, addressType, street, number, complement, neighborhood, zipCode, city, state)
    }

    /**
     * `getAddressTypeString`: the type's name, `RESIDENTIAL` when the type
     * is null. Reading it back with `fromString` gives the type, null read
     * as residential.
     */
    function GetAddressTypeString(): (s: string)
      reads this
      ensures FromString(Some(s)) == addressType.GetOr(Residential)
      ensures s == "RESIDENTIAL" || s == "COMMERCIAL"
    {
      FromStringOfName(addressType.GetOr(Residential));
      addressType.GetOr(Residential).Name()
    }

    method SetId(v: JString)
      modifies this`id
      ensures id == v
    {
      id := v;
    }

    /** `setAddressType(AddressType)`; null is allowed. */
    method SetAddressType(v: Option<AddressType>)
      modifies this`addressType
      ensures addressType == v
    {
      addressType := v;
    }

    /** `setAddressType(String)`: decodes the name; null and unknown names give `RESIDENTIAL`. */
    method SetAddressTypeString(v: JString)
      modifies this`addressType
      ensures addressType == Some(FromString(v))
      ensures v.None? ==> addressType == Some(Residential)
    {
      addressType := Some(FromString(v));
    }

    method SetStreet(v: JString)
      modifies this`street
      ensures street == v
    {
      street := v;
    }

    method SetNumber(v: JString)
      modifies this`number
      ensures number == v
    {
      number := v;
    }

    method SetComplement(v: JString)
      modifies this`complement
      ensures complement == v
    {
      complement := v;
    }

    method SetNeighborhood(v: JString)
      modifies this`neighborhood
      ensures neighborhood == v
    {
      neighborhood := v;
    }

    method SetZipCode(v: JString)
      modifies this`zipCode
      ensures zipCode == v
    {
      zipCode := v;
    }

    method SetCity(v: JString)
      modifies this`city
      ensures city == v
    {
      city := v;
    }

    method SetState(v: JString)
      modifies this`state
      ensures state == v
    {
      state := v;
    }
  }
}
