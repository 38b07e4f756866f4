/**
 * `PersonDTO`: the mutable person object the form edits and the list
 * shows. Its constructor fills in defaults; the creation time, read from
 * the clock in the app, is a parameter here.
 */
module PersonDtos {
  import opened Wrappers
  import opened JavaText
  import opened PersonTypes
  import opened AddressDtos

  /** The scalar contents of a person object at one moment, as a value. */
  datatype PersonFields = PersonFields(
    id: JString,
    personType: Option<PersonType>,
    name: JString,
    cpf: JString,
    companyName: JString,
    cnpj: JString,
    phoneNumber: JString,
    email: JString,
    createdAt: int,
    latitude: real,
    longitude: real,
    deviceName: JString)

  class PersonDTO {
    var id: JString
    var personType: Option<PersonType>
    var name: JString
    var cpf: JString
    var companyName: JString
    var cnpj: JString
    var phoneNumber: JString
    var email: JString
    /** A list of (possibly null) address references; the list itself may be null. */
    var addresses: Option<seq<AddressDTO?>>
    var createdAt: int
    var latitude: real
    var longitude: real
    var deviceName: JString

    /**
     * A new person is physical, has empty name, CPF, company name, CNPJ,
     * phone and e-mail, an empty address list, no id, no device name, and
     * was created at `now`.
     */
    constructor(now: int)
      ensures Fields() == PersonFields(None, Some(Physical), Some(""), Some(""), Some(""), Some(""),
                                       Some(""), Some(""), now, 0.0, 0.0, None)
      ensures addresses == Some([])
    {
      addresses := Some([]);
      personType := Some(Physical);
      name, cpf, companyName, cnpj := Some(""), Some(""), Some(""), Some("");
      phoneNumber, email := Some(""), Some("");
      createdAt := now;
      id, latitude, longitude, deviceName := None, 0.0, 0.0, None;
    }

    /** The object's current scalar contents. */
    function Fields(): PersonFields
      reads this
    {
      PersonFields(id, personType, name, cpf, companyName, cnpj, phoneNumber, email,
                   createdAt, latitude, longitude, deviceName)
    }

    /**
     * `getPersonTypeString`: the type's name, `PHYSICAL` when the type is
     * null. Reading it back with `fromString` gives the type, null read as
     * physical.
     */
    function GetPersonTypeString(): (s: string)
      reads this
      ensures FromString(Some(s)) == personType.GetOr(Physical)
      ensures s == "PHYSICAL" || s == "LEGAL"
    {
      FromStringOfName(personType.GetOr(Physical));
      personType.GetOr(Physical).Name()
    }

    /** `addAddress`: appends to the list, which must not be null. */
    method AddAddress(address: AddressDTO?)
      requires addresses.Some?
      modifies this`addresses
      ensures addresses == Some(old(addresses.value) + [address])
    {
      addresses := Some(addresses.value + [address]);
    }

    method SetId(v: JString)
      modifies this`id
      ensures id == v
    {
      id := v;
    }

    /** `setPersonType(PersonType)`; null is allowed. */
    method SetPersonType(v: Option<PersonType>)
      modifies this`personType
      ensures personType == v
    {
      personType := v;
    }

    /** `setPersonType(String)`: decodes the name; null and unknown names give `PHYSICAL`. */
    method SetPersonTypeString(v: JString)
      modifies this`personType
      ensures personType == Some(FromString(v))
      ensures v.None? ==> personType == Some(Physical)
    {
      personType := Some(FromString(v));
    }

    method SetName(v: JString)
      modifies this`name
      ensures name == v
    {
      name := v;
    }

    method SetCpf(v: JString)
      modifies this`cpf
      ensures cpf == v
    {
      cpf := v;
    }

    method SetCompanyName(v: JString)
      modifies this`companyName
      ensures companyName == v
    {
      companyName := v;
    }

    method SetCnpj(v: JString)
      modifies this`cnpj
      ensures cnpj == v
    {
      cnpj := v;
    }

    method SetPhoneNumber(v: JString)
      modifies this`phoneNumber
      ensures phoneNumber == v
    {
      phoneNumber := v;
    }

    method SetEmail(v: JString)
      modifies this`email
      ensures email == v
    {
      email := v;
    }

    /** `setAddresses`: the new list replaces the old one; null is allowed. */
    method SetAddresses(v: Option<seq<AddressDTO?>>)
      modifies this`addresses
      ensures addresses == v
    {
      addresses := v;
    }

    method SetCreatedAt(v: int)
      modifies this`createdAt
      ensures createdAt == v
    {
      createdAt := v;
    }

    method SetLatitude(v: real)
      modifies this`latitude
      ensures latitude == v
    {
      latitude := v;
    }

    method SetLongitude(v: real)
      modifies this`longitude
      ensures longitude == v
    {
      longitude := v;
    }

    method SetDeviceName(v: JString)
      modifies this`deviceName
      ensures deviceName == v
    {
      deviceName := v;
    }
  }
}
