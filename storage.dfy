/**
 * The Realm storage records `Person` and `Address`. Their classes are not
 * part of this model; they are plain records holding exactly the fields the
 * mappers read and write. Types are stored as their names (strings), and a
 * person's address list may be absent (a null `RealmList`).
 */
module Storage {
  import opened Wrappers
  import opened JavaText

  datatype Address = Address(
    id: JString,
    addressType: JString,
    street: JString,
    number: JString,
    complement: JString,
    neighborhood: JString,
    zipCode: JString,
    city: JString,
    state: JString)

  datatype Person = Person(
    id: JString,
    personType: JString,
    name: JString,
    cpf: JString,
    companyName: JString,
    cnpj: JString,
    phoneNumber: JString,
    email: JString,
    createdAt: int,
    latitude: real,
    longitude: real,
    deviceName: JString,
    addresses: Option<seq<Option<Address>>>)

  /** `new Address()`: every field null. */
  const NewAddress: Address :=
    Address(None, None, None, None, None, None, None, None, None)

  /** `new Person()`: every reference null, every number zero. */
  const NewPerson: Person :=
    Person(None, None, None, None, None, None, None, None, 0, 0.0, 0.0, None, None)
}
