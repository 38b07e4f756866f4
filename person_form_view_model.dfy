/**
 * The form screen's view model (`PersonFormViewModel`): the edited person,
 * the address list being edited, one value per form field and the error
 * message shown to the user. Only the state the form logic reads and
 * writes is modelled; Android's `LiveData` holders become plain fields.
 */
module PersonForm {
  import opened Wrappers
  import opened JavaText
  import opened PersonTypes
  import opened AddressTypes
  import opened AddressDtos
  import opened PersonDtos
  import opened ValidationUtil
  import opened ListEdits

  const TypeRequired := "Tipo de pessoa é obrigatório"
  const NameRequired := "Nome é obrigatório"
  const CpfRequired := "CPF é obrigatório"
  const CpfInvalid := "CPF inválido. Deve conter 11 dígitos válidos"
  const CompanyNameRequired := "Nome da empresa é obrigatório"
  const CnpjRequired := "CNPJ é obrigatório"
  const CnpjInvalid := "CNPJ inválido. Deve conter 14 dígitos válidos"
  const PhoneRequired := "Telefone é obrigatório"
  const PhoneInvalid := "Telefone inválido. Deve conter 10 ou 11 dígitos"
  const EmailRequired := "Email é obrigatório"
  const EmailInvalid := "Email inválido"

  /** The values of the form fields that validation reads. */
  datatype FormInput = FormInput(
    personType: Option<PersonType>,
    name: JString,
    cpf: JString,
    companyName: JString,
    cnpj: JString,
    phoneNumber: JString,
    email: JString)

  /** A type is chosen, and the person is identified as that type requires. */
  predicate IdentityValid(f: FormInput) {
    && f.personType.Some?
    && (f.personType.value == Physical ==> !IsEmpty(f.name) && CpfValid(f.cpf))
    && (f.personType.value == Legal ==> !IsEmpty(f.companyName) && CnpjValid(f.cnpj))
  }

  /**
   * When a form is acceptable, independently of the order of the checks:
   * a type is chosen; a physical person has a name and a valid CPF, a legal
   * person a company name and a valid CNPJ; the phone and the e-mail are
   * valid.
   */
  predicate FormValid(f: FormInput, matchesEmailPattern: string -> bool) {
    && IdentityValid(f)
    && IsValidPhone(f.phoneNumber)
    && IsValidEmail(f.email, matchesEmailPattern)
  }

  /**
   * The message of the first failing check, in the order `validateFields`
   * runs them, or null when every check passes.
   */
  function FirstFailure(f: FormInput, matchesEmailPattern: string -> bool): (message: JString)
    ensures message.None? <==> FormValid(f, matchesEmailPattern)
  {
    if f.personType.None? then Some(TypeRequired)
    else if f.personType.value == Physical && IsEmpty(f.name) then Some(NameRequired)
    else if f.personType.value == Physical && IsEmpty(f.cpf) then Some(CpfRequired)
    else if f.personType.value == Physical && !CpfValid(f.cpf) then Some(CpfInvalid)
    else if f.personType.value == Legal && IsEmpty(f.companyName) then Some(CompanyNameRequired)
    else if f.personType.value == Legal && IsEmpty(f.cnpj) then Some(CnpjRequired)
    else if f.personType.value == Legal && !CnpjValid(f.cnpj) then Some(CnpjInvalid)
    else if IsEmpty(f.phoneNumber) then Some(PhoneRequired)
    else if !IsValidPhone(f.phoneNumber) then Some(PhoneInvalid)
    else if IsEmpty(f.email) then Some(EmailRequired)
    else if !IsValidEmail(f.email, matchesEmailPattern) then Some(EmailInvalid)
    else None
  }

  /** A physical person is never judged by company name or CNPJ. */
  lemma PhysicalIgnoresCompanyFields(f: FormInput, m: string -> bool, companyName: JString, cnpj: JString)
    requires f.personType == Some(Physical)
    ensures FirstFailure(f.(companyName := companyName, cnpj := cnpj), m) == FirstFailure(f, m)
  {
  }

  /** A legal person is never judged by name or CPF. */
  lemma LegalIgnoresPersonalFields(f: FormInput, m: string -> bool, name: JString, cpf: JString)
    requires f.personType == Some(Legal)
    ensures FirstFailure(f.(name := name, cpf := cpf), m) == FirstFailure(f, m)
  {
  }

  /**
   * The phone and e-mail checks run only once the type and identity checks
   * have passed, and the e-mail checks only once the phone checks have.
   */
  lemma ContactChecksComeLast(f: FormInput, m: string -> bool)
    requires FirstFailure(f, m) in {Some(PhoneRequired), Some(PhoneInvalid), Some(EmailRequired), Some(EmailInvalid)}
    ensures IdentityValid(f)
    ensures FirstFailure(f, m) in {Some(EmailRequired), Some(EmailInvalid)} ==> IsValidPhone(f.phoneNumber)
  {
  }

  /** `capitalize`: upper-cases the first character unless it already is upper case. */
  function Capitalize(s: JString): (r: string)
    ensures IsEmpty(s) ==> r == ""
    ensures !IsEmpty(s) ==> |r| == |s.value| && r[1..] == s.value[1..] && r[0] == ToUpperCase(s.value[0])
    ensures !IsEmpty(s) && IsUpperCase(s.value[0]) ==> r == s.value
  {
    if s.None? || |s.value| == 0 then ""
    else
      var first := s.value[0];
      if IsUpperCase(first) then s.value
      else [ToUpperCase(first)] + s.value[1..]
  }

  /** Capitalizing twice is the same as capitalizing once. */
  lemma CapitalizeIdempotent(s: JString)
    ensures Capitalize(Some(Capitalize(s))) == Capitalize(s)
  {
  }

  class PersonFormViewModel {
    /** The person being edited. */
    var person: PersonDTO
    /** The addresses being edited; the holder may contain null. */
    var addresses: Option<seq<AddressDTO?>>
    /** The message shown to the user, null when there is none. */
    var error: JString
    var personType: Option<PersonType>
    var name: JString
    var cpf: JString
    var companyName: JString
    var cnpj: JString
    var phoneNumber: JString
    var email: JString

    /** The initial state: a new person, no addresses, no error, a physical person with empty fields. */
    constructor(now: int)
      ensures fresh(person) && person.addresses == Some([])
      ensures person.Fields() == PersonFields(None, Some(Physical), Some(""), Some(""), Some(""), Some(""),
                                              Some(""), Some(""), now, 0.0, 0.0, None)
      ensures addresses == Some([]) && error.None?
      ensures Input() == FormInput(Some(Physical), Some(""), Some(""), Some(""), Some(""), Some(""), Some(""))
    {
      person := new PersonDTO(now);
      addresses := Some([]);
      error := None;
      personType := Some(Physical);
      name, cpf, companyName, cnpj := Some(""), Some(""), Some(""), Some("");
      phoneNumber, email := Some(""), Some("");
    }

    /** The form fields' current values. */
    function Input(): FormInput
      reads this
    {
      FormInput(personType, name, cpf, companyName, cnpj, phoneNumber, email)
    }

    /**
     * `loadPerson` for a null or empty id: the form starts over with a new
     * physical person and an empty address list; the field values are kept.
     */
    method LoadPerson(id: JString, now: int)
      requires IsEmpty(id)
      modifies this`person, this`addresses
      ensures fresh(person) && person.addresses == Some([])
      ensures person.Fields() == PersonFields(None, Some(Physical), Some(""), Some(""), Some(""), Some(""),
                                              Some(""), Some(""), now, 0.0, 0.0, None)
      ensures addresses == Some([])
    {
      var newPerson := new PersonDTO(now);
      newPerson.SetPersonType(Some(Physical));
      person := newPerson;
      addresses := Some([]);
    }

    /**
     * `addAddress`: appends a new residential address with the id `newId`
     * (a random UUID in the app); a null list counts as empty.
     */
    method AddAddress(newId: string)
      modifies this`addresses
      ensures addresses.Some? && |addresses.value| == |old(addresses).GetOr([])| + 1
      ensures addresses.value[..|addresses.value| - 1] == old(addresses).GetOr([])
      ensures var added := addresses.value[|addresses.value| - 1];
              added != null && fresh(added) &&
              added.Fields() == AddressFields(Some(newId), Some(Residential), None, None, None, None, None, None, None)
    {
      var currentAddresses: seq<AddressDTO?> := addresses.GetOr([]);
      var newAddress := new AddressDTO();
      newAddress.SetId(Some(newId));
      newAddress.SetAddressType(Some(Residential));
      currentAddresses := currentAddresses + [newAddress];
      addresses := Some(currentAddresses);
    }

    /** `updateAddress`: replaces the entry at an existing position; otherwise nothing changes. */
    method UpdateAddress(address: AddressDTO?, position: int)
      modifies this`addresses
      ensures old(addresses).None? ==> addresses.None?
      ensures old(addresses).Some? ==>
                addresses.Some? && ReplacedAt(old(addresses).value, position, address, addresses.value)
    {
      if addresses.Some? && 0 <= position < |addresses.value| {
        addresses := Some(addresses.value[position := address]);
      }
    }

    /**
     * `removeAddress`: deletes the entry at an existing position, keeping
     * the others in order; otherwise nothing changes.
     */
    method RemoveAddress(position: int)
      modifies this`addresses
      ensures old(addresses).None? ==> addresses.None?
      ensures old(addresses).Some? ==>
                addresses.Some? && RemovedAt(old(addresses).value, position, addresses.value)
    {
      if addresses.Some? && 0 <= position < |addresses.value| {
        var list := addresses.value;
        addresses := Some(list[..position] + list[position + 1..]);
      }
    }

    /**
     * `validateFields`: clears the error, runs the checks in order and
     * stops at the first failure, leaving its message as the error. On
     * success a null address list is replaced by an empty one.
     * `matchesEmailPattern` is the platform's e-mail address pattern.
     */
    method ValidateFields(matchesEmailPattern: string -> bool) returns (valid: bool)
      modifies this`error, this`addresses
      ensures error == FirstFailure(Input(), matchesEmailPattern)
      ensures valid <==> FormValid(Input(), matchesEmailPattern)
      ensures addresses == (if valid && old(addresses).None? then Some([]) else old(addresses))
    {
      error := None;
      var f := Input();
      if personType.None? {
        error := Some(TypeRequired);
        return false;
      }
      if personType.value == Physical {
        if IsEmpty(name) {
          error := Some(NameRequired);
          return false;
        }
        if IsEmpty(cpf) {
          error := Some(CpfRequired);
          return false;
        }
        var cpfOk := IsValidCpf(cpf);
        if !cpfOk {
          error := Some(CpfInvalid);
          return false;
        }
      } else {
        if IsEmpty(companyName) {
          error := Some(CompanyNameRequired);
          return false;
        }
        if IsEmpty(cnpj) {
          error := Some(CnpjRequired);
          return false;
        }
        var cnpjOk := IsValidCnpj(cnpj);
        if !cnpjOk {
          error := Some(CnpjInvalid);
          return false;
        }
      }
      if IsEmpty(phoneNumber) {
        error := Some(PhoneRequired);
        return false;
      }
      if !IsValidPhone(phoneNumber) {
        error := Some(PhoneInvalid);
        return false;
      }
      if IsEmpty(email) {
        error := Some(EmailRequired);
        return false;
      }
      if !IsValidEmail(email, matchesEmailPattern) {
        error := Some(EmailInvalid);
        return false;
      }
      if addresses.None? {
        addresses := Some([]);
      }
      return true;
    }
  }
}
