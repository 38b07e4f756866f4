/**
 * `PersonMapper`: converts between the stored `Person` record and the
 * `PersonDTO` object. The type travels as its name; a null type is stored
 * as `PHYSICAL`, and a missing or unknown name is read back as `PHYSICAL`.
 * The scalar fields are copied unchanged and the addresses are converted
 * one by one, in order, through `AddressMapper`.
 */
module PersonMapping {
  import opened Wrappers
  import opened JavaText
  import opened PersonTypes
  import opened Storage
  import opened AddressDtos
  import opened PersonDtos
  import AddressMapping

  /** The scalar contents `fromRealm` gives a new object for the record `p`. */
  function Decode(p: Person): (f: PersonFields)
    ensures f.personType == Some(FromString(p.personType))
    ensures p.personType.None? ==> f.personType == Some(Physical)
  {
    PersonFields(p.id, Some(FromString(p.personType)), p.name, p.cpf, p.companyName, p.cnpj,
                 p.phoneNumber, p.email, p.createdAt, p.latitude, p.longitude, p.deviceName)
  }

  /** The record `toRealm` builds from an object whose scalar contents are `f`, before its addresses are set. */
  function Encode(f: PersonFields): (p: Person)
    ensures p.personType.Some? && p.addresses.None?
    ensures f.personType.None? ==> p.personType == Some("PHYSICAL")
    ensures FromString(p.personType) == f.personType.GetOr(Physical)
  {
    FromStringOfName(f.personType.GetOr(Physical));
    Person(f.id, Some(f.personType.GetOr(Physical).Name()), f.name, f.cpf, f.companyName, f.cnpj,
           f.phoneNumber, f.email, f.createdAt, f.latitude, f.longitude, f.deviceName, None)
  }

  /** Storing an object and reading it back restores every scalar field, a null type becoming `PHYSICAL`. */
  lemma DecodeEncode(f: PersonFields)
    ensures Decode(Encode(f)) == f.(personType := Some(f.personType.GetOr(Physical)))
  {
  }

  /**
   * Reading a record and storing it back restores its scalar fields, the
   * type name normalised to the name of the decoded type.
   */
  lemma EncodeDecode(p: Person)
    ensures Encode(Decode(p)) == p.(personType := Some(FromString(p.personType).Name()), addresses := None)
  {
  }

  /** The address objects a person object refers to. */
  function AddressObjects(dto: PersonDTO): set<AddressDTO>
    reads dto
  {
    if dto.addresses.Some? then set a: AddressDTO | a in dto.addresses.value else {}
  }

  /**
   * `dto` is what `fromRealm` makes of `p`: the decoded scalars, and the
   * addresses decoded one by one, or an empty list when `p` has none.
   */
  ghost predicate DecodedAs(dto: PersonDTO, p: Person)
    reads dto, AddressObjects(dto)
  {
    && dto.Fields() == Decode(p)
    && dto.addresses.Some?
    && (p.addresses.None? ==> dto.addresses.value == [])
    && (p.addresses.Some? ==>
          && |dto.addresses.value| == |p.addresses.value|
          && forall i :: 0 <= i < |dto.addresses.value| ==>
               AddressMapping.DecodedAs(dto.addresses.value[i], p.addresses.value[i]))
  }

  /** The first part of `fromRealm(Person)`: a new object, its scalar fields set one by one. */
  method FillScalars(p: Person, now: int) returns (dto: PersonDTO)
    ensures fresh(dto)
    ensures dto.Fields() == Decode(p) && dto.addresses == Some([])
  {
    dto := new PersonDTO(now);
    dto.SetId(p.id);
    dto.SetPersonType(Some(FromString(p.personType)));
    dto.SetName(p.name);
    dto.SetCpf(p.cpf);
    dto.SetCompanyName(p.companyName);
    dto.SetCnpj(p.cnpj);
    dto.SetPhoneNumber(p.phoneNumber);
    dto.SetEmail(p.email);
    dto.SetCreatedAt(p.createdAt);
    dto.SetLatitude(p.latitude);
    dto.SetLongitude(p.longitude);
    dto.SetDeviceName(p.deviceName);
  }

  /** `fromRealm(Person)`: null for null, otherwise a new object filled in setter by setter. */
  method FromRealm(person: Option<Person>, now: int) returns (dto: PersonDTO?)
    ensures person.None? <==> dto == null
    ensures dto != null ==> DecodedAs(dto, person.value)
    ensures dto != null ==> fresh(dto) && fresh(AddressObjects(dto))
  {
    if person.None? {
      return null;
    }
    var p := person.value;
    dto := FillScalars(p, now);
    if p.addresses.Some? {
      var list := AddressMapping.FromRealmList(p.addresses);
      dto.SetAddresses(list);
    }
  }

  /** `fromRealm(List<Person>)`: null for null, otherwise one new object per record, in order. */
  method FromRealmList(persons: Option<seq<Option<Person>>>, now: int) returns (dtos: Option<seq<PersonDTO?>>)
    ensures persons.None? <==> dtos.None?
    ensures dtos.Some? ==> |dtos.value| == |persons.value|
    ensures dtos.Some? ==> forall i :: 0 <= i < |dtos.value| ==>
              (dtos.value[i] == null <==> persons.value[i].None?)
    ensures dtos.Some? ==> forall i :: 0 <= i < |dtos.value| && dtos.value[i] != null ==>
              DecodedAs(dtos.value[i], persons.value[i].value)
    ensures dtos.Some? ==> forall i :: 0 <= i < |dtos.value| && dtos.value[i] != null ==>
              fresh(dtos.value[i]) && fresh(AddressObjects(dtos.value[i]))
  {
    if persons.None? {
      return None;
    }
    var records := persons.value;
    var list: seq<PersonDTO?> := [];
    for i := 0 to |records|
      invariant |list| == i
      invariant forall j :: 0 <= j < i ==> (list[j] == null <==> records[j].None?)
      invariant forall j :: 0 <= j < i && list[j] != null ==>
                  DecodedAs(list[j], records[j].value)
      invariant forall j :: 0 <= j < i && list[j] != null ==>
                  fresh(list[j]) && fresh(AddressObjects(list[j]))
    {
      var dto := FromRealm(records[i], now);
      list := list + [dto];
    }
    dtos := Some(list);
  }

  /**
   * `p` is what `toRealm` makes of `dto`: the encoded scalars, and the
   * addresses encoded one by one when the object has a list.
   */
  ghost predicate EncodedAs(p: Person, dto: PersonDTO)
    reads dto, AddressObjects(dto)
  {
    && p.(addresses := None) == Encode(dto.Fields())
    && (dto.addresses.None? <==> p.addresses.None?)
    && (dto.addresses.Some? ==>
          && |p.addresses.value| == |dto.addresses.value|
          && forall i :: 0 <= i < |p.addresses.value| ==>
               AddressMapping.EncodedAs(p.addresses.value[i], dto.addresses.value[i]))
  }

  /** `toRealm`: null for null, otherwise a new record filled in setter by setter. */
  method ToRealm(dto: PersonDTO?) returns (person: Option<Person>)
    ensures dto == null <==> person.None?
    ensures dto != null ==> EncodedAs(person.value, dto)
  {
    if dto == null {
      return None;
    }
    var p := NewPerson;
    p := p.(id := dto.id);
    p := p.(personType := Some(if dto.personType.Some? then dto.personType.value.Name() else Physical.Name()));
    p := p.(name := dto.name);
    p := p.(cpf := dto.cpf);
    p := p.(companyName := dto.companyName);
    p := p.(cnpj := dto.cnpj);
    p := p.(phoneNumber := dto.phoneNumber);
    p := p.(email := dto.email);
    p := p.(createdAt := dto.createdAt);
    p := p.(latitude := dto.latitude);
    p := p.(longitude := dto.longitude);
    p := p.(deviceName := dto.deviceName);
    if dto.addresses.Some? {
      var list := dto.addresses.value;
      var stored: seq<Option<Address>> := [];
      for i := 0 to |list|
        invariant |stored| == i
        invariant forall j :: 0 <= j < i ==> AddressMapping.EncodedAs(stored[j], list[j])
      {
        var a := AddressMapping.ToRealm(list[i]);
        stored := stored + [a];
      }
      p := p.(addresses := Some(stored));
    }
    person := Some(p);
  }
}
