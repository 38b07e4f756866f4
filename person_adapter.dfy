/**
 * The person list adapter (`PersonAdapter`): its backing list, the identity
 * comparison it gives the list differ, the CPF, CNPJ and phone display
 * formats, and the address summary each person row shows.
 */
module PersonAdapters {
  import opened Wrappers
  import opened JavaText
  import opened AddressTypes
  import opened AddressDtos
  import opened PersonDtos
  import opened ListEdits
  import opened MaskUtil
  import AddressAdapters

  // ---------------------------------------------------------------------
  // Comparison

  /** `areItemsTheSame`: both persons have ids and the ids are equal. */
  predicate AreItemsTheSame(oldItem: PersonDTO, newItem: PersonDTO)
    reads oldItem, newItem
  {
    oldItem.id.Some? && newItem.id.Some? && oldItem.id.value == newItem.id.value
  }

  /** Identity does not depend on which item is the old one, and needs an id on both sides. */
  lemma ItemsTheSameSymmetric(a: PersonDTO, b: PersonDTO)
    ensures AreItemsTheSame(a, b) <==> AreItemsTheSame(b, a)
    ensures AreItemsTheSame(a, b) ==> a.id.Some? && a.id == b.id
  {
  }

  /**
   * `areContentsTheSame` calls `equals` on the old item's name, email, phone
   * and type, in that order, stopping at the first mismatch: each of those
   * it reaches must be non-null.
   */
  predicate ContentsComparable(oldItem: PersonDTO, newItem: PersonDTO)
    reads oldItem, newItem
  {
    && oldItem.name.Some?
    && (oldItem.name == newItem.name ==> oldItem.email.Some?)
    && (oldItem.name == newItem.name && oldItem.email == newItem.email ==> oldItem.phoneNumber.Some?)
    && (oldItem.name == newItem.name && oldItem.email == newItem.email && oldItem.phoneNumber == newItem.phoneNumber
        ==> oldItem.personType.Some?)
  }

  /**
   * `areContentsTheSame`: equal name, email, phone and type, and null-safe
   * equal CPF, CNPJ and company name.
   */
  predicate AreContentsTheSame(oldItem: PersonDTO, newItem: PersonDTO)
    requires ContentsComparable(oldItem, newItem)
    reads oldItem, newItem
  {
    && oldItem.name == newItem.name
    && oldItem.email == newItem.email
    && oldItem.phoneNumber == newItem.phoneNumber
    && oldItem.personType == newItem.personType
    && (if oldItem.cpf.None? then newItem.cpf.None? else oldItem.cpf == newItem.cpf)
    && (if oldItem.cnpj.None? then newItem.cnpj.None? else oldItem.cnpj == newItem.cnpj)
    && (if oldItem.companyName.None? then newItem.companyName.None? else oldItem.companyName == newItem.companyName)
  }

  /** What a person row compares: everything but the id, the creation time, the position and the device. */
  function Compared(f: PersonFields): PersonFields {
    f.(id := None, createdAt := 0, latitude := 0.0, longitude := 0.0, deviceName := None)
  }

  /**
   * Content comparison is equality of the compared fields; in particular it
   * never looks at the addresses.
   */
  lemma ContentsTheSameIff(a: PersonDTO, b: PersonDTO)
    requires ContentsComparable(a, b)
    ensures AreContentsTheSame(a, b) <==> Compared(a.Fields()) == Compared(b.Fields())
  {
  }

  /** A person whose compared fields are filled in has the same contents as itself. */
  lemma ContentsTheSameReflexive(a: PersonDTO)
    requires a.name.Some? && a.email.Some? && a.phoneNumber.Some? && a.personType.Some?
    ensures ContentsComparable(a, a) && AreContentsTheSame(a, a)
  {
  }

  /** Same contents one way round means same contents the other way round, and the comparison is safe then. */
  lemma ContentsTheSameSymmetric(a: PersonDTO, b: PersonDTO)
    requires ContentsComparable(a, b) && AreContentsTheSame(a, b)
    ensures ContentsComparable(b, a) && AreContentsTheSame(b, a)
  {
  }

  // ---------------------------------------------------------------------
  // Display formats

  /**
   * `formatCpf`: "ddd.ddd.ddd-dd" for an 11-character input; any other
   * input, null included, is returned as it is.
   */
  function FormatCpf(cpf: JString): (r: JString)
    ensures cpf.None? || |cpf.value| != 11 ==> r == cpf
    ensures cpf.Some? && |cpf.value| == 11 ==>
              && r.Some? && |r.value| == 14
              && r.value[3] == '.' && r.value[7] == '.' && r.value[11] == '-'
              && r.value[..3] + r.value[4..7] + r.value[8..11] + r.value[12..] == cpf.value
  {
    if cpf.None? || |cpf.value| != 11 then cpf
    else
      var s := cpf.value;
      var r := s[..3] + "." + s[3..6] + "." + s[6..9] + "-" + s[9..];
      assert r[..3] == s[..3] && r[4..7] == s[3..6] && r[8..11] == s[6..9] && r[12..] == s[9..];
      assert s[..3] + s[3..6] + s[6..9] + s[9..] == s;
      Some(r)
  }

  /**
   * `formatCnpj`: "dd.ddd.ddd/dddd-dd" for a 14-character input; any other
   * input, null included, is returned as it is.
   */
  function FormatCnpj(cnpj: JString): (r: JString)
    ensures cnpj.None? || |cnpj.value| != 14 ==> r == cnpj
    ensures cnpj.Some? && |cnpj.value| == 14 ==>
              && r.Some? && |r.value| == 18
              && r.value[2] == '.' && r.value[6] == '.' && r.value[10] == '/' && r.value[15] == '-'
              && r.value[..2] + r.value[3..6] + r.value[7..10] + r.value[11..15] + r.value[16..] == cnpj.value
  {
    if cnpj.None? || |cnpj.value| != 14 then cnpj
    else
      var s := cnpj.value;
      var r := s[..2] + "." + s[2..5] + "." + s[5..8] + "/" + s[8..12] + "-" + s[12..];
      assert r[..2] == s[..2] && r[3..6] == s[2..5] && r[7..10] == s[5..8];
      assert r[11..15] == s[8..12] && r[16..] == s[12..];
      assert s[..2] + s[2..5] + s[5..8] + s[8..12] + s[12..] == s;
      Some(r)
  }

  /**
   * `formatPhone`: "" for null; from the input's digits, "(dd) ddddd-dddd"
   * when there are eleven and "(dd) dddd-dddd" when there are ten;
   * otherwise the input as it is.
   */
  function FormatPhone(phone: JString): (r: string)
    ensures phone.None? ==> r == ""
    ensures phone.Some? && |Unmask(phone.value)| == 11 ==>
              |r| == 15 && r[0] == '(' && r[3..5] == ") " && r[10] == '-'
    ensures phone.Some? && |Unmask(phone.value)| == 10 ==>
              |r| == 14 && r[0] == '(' && r[3..5] == ") " && r[9] == '-'
    ensures phone.Some? && |Unmask(phone.value)| != 10 && |Unmask(phone.value)| != 11 ==> r == phone.value
  {
    if phone.None? then ""
    else
      var numbers := Unmask(phone.value);
      if |numbers| == 11 then
        "(" + numbers[..2] + ") " + numbers[2..7] + "-" + numbers[7..]
      else if |numbers| == 10 then
        "(" + numbers[..2] + ") " + numbers[2..6] + "-" + numbers[6..]
      else
        phone.value
  }

  /** Unmasking `x + sep + b`, for a separator without digits and digits `b`, unmasks `x` and keeps `b`. */
  lemma UnmaskSeparated(x: string, sep: string, b: string)
    requires AllDigits(b)
    requires forall i :: 0 <= i < |sep| ==> !IsDigit(sep[i])
    ensures Unmask(x + sep + b) == Unmask(x) + b
  {
    UnmaskDropsNonDigits(sep);
    UnmaskKeepsDigits(b);
    var ux, us := Unmask(x), Unmask(sep);
    UnmaskAppend(x, sep);
    assert Unmask(x + sep) == ux + us;
    assert us == [];
    assert ux + us == ux;
    UnmaskAppend(x + sep, b);
  }

  /** A CPF of eleven digits loses only its punctuation when formatted. */
  lemma FormatCpfKeepsDigits(cpf: string)
    requires |cpf| == 11 && AllDigits(cpf)
    ensures Unmask(FormatCpf(Some(cpf)).value) == cpf
  {
    var s := cpf;
    UnmaskKeepsDigits(s[..3]);
    UnmaskSeparated(s[..3], ".", s[3..6]);
    UnmaskSeparated(s[..3] + "." + s[3..6], ".", s[6..9]);
    UnmaskSeparated(s[..3] + "." + s[3..6] + "." + s[6..9], "-", s[9..]);
    assert s[..3] + s[3..6] + s[6..9] + s[9..] == s;
  }

  /** A CNPJ of fourteen digits loses only its punctuation when formatted. */
  lemma FormatCnpjKeepsDigits(cnpj: string)
    requires |cnpj| == 14 && AllDigits(cnpj)
    ensures Unmask(FormatCnpj(Some(cnpj)).value) == cnpj
  {
    var s := cnpj;
    UnmaskKeepsDigits(s[..2]);
    UnmaskSeparated(s[..2], ".", s[2..5]);
    UnmaskSeparated(s[..2] + "." + s[2..5], ".", s[5..8]);
    UnmaskSeparated(s[..2] + "." + s[2..5] + "." + s[5..8], "/", s[8..12]);
    UnmaskSeparated(s[..2] + "." + s[2..5] + "." + s[5..8] + "/" + s[8..12], "-", s[12..]);
    assert s[..2] + s[2..5] + s[5..8] + s[8..12] + s[12..] == s;
  }

  /** The phone layout "(" + area code + ") " + first part + "-" + rest keeps exactly the digits. */
  lemma PhoneLayoutDigits(n: string, k: nat)
    requires AllDigits(n) && 2 <= k <= |n|
    ensures Unmask("(" + n[..2] + ") " + n[2..k] + "-" + n[k..]) == n
  {
    assert "" + "(" + n[..2] == "(" + n[..2];
    UnmaskSeparated("", "(", n[..2]);
    UnmaskSeparated("(" + n[..2], ") ", n[2..k]);
    UnmaskSeparated("(" + n[..2] + ") " + n[2..k], "-", n[k..]);
    assert n[..2] + n[2..k] + n[k..] == n;
  }

  /** A phone with ten or eleven digits loses only its punctuation when formatted; any other phone is kept. */
  lemma FormatPhoneKeepsDigits(phone: string)
    ensures Unmask(FormatPhone(Some(phone))) == Unmask(phone)
  {
    var n := Unmask(phone);
    if |n| == 11 {
      PhoneLayoutDigits(n, 7);
    } else if |n| == 10 {
      PhoneLayoutDigits(n, 6);
    }
  }

  /** Formatting a formatted phone number changes nothing. */
  lemma FormatPhoneIdempotent(phone: JString)
    requires phone.Some?
    ensures FormatPhone(Some(FormatPhone(phone))) == FormatPhone(phone)
  {
    FormatPhoneKeepsDigits(phone.value);
    UnmaskIdempotent(phone.value);
  }

  // ---------------------------------------------------------------------
  // Address summary

  const NoAddresses := "Nenhum endereço cadastrado"
  const EntrySeparator := "\n\n"

  /**
   * One address in the summary: the type's display name and ": ", the
   * street (with ", " and the number when there is one), " - " and the
   * neighborhood, and ", " with the city/state text; each part only when
   * its field is non-empty.
   */
  function Entry(a: AddressFields): string {
    TypePart(a) + StreetPart(a) + NeighborhoodPart(a) + CityStatePart(a)
  }

  function TypePart(a: AddressFields): string {
    if a.addressType.Some? then a.addressType.value.DisplayName() + ": " else ""
  }

  function StreetPart(a: AddressFields): string {
    if IsEmpty(a.street) then ""
    else a.street.value + (if IsEmpty(a.number) then "" else ", " + a.number.value)
  }

  function NeighborhoodPart(a: AddressFields): string {
    if IsEmpty(a.neighborhood) then "" else " - " + a.neighborhood.value
  }

  function CityStatePart(a: AddressFields): string {
    if IsEmpty(a.city) && IsEmpty(a.state) then ""
    else ", " + AddressAdapters.CityState(OrEmpty(a.city), OrEmpty(a.state))
  }

  /** The number is shown only together with a street. */
  lemma EntryNumberNeedsStreet(a: AddressFields, number: JString)
    requires IsEmpty(a.street)
    ensures Entry(a.(number := number)) == Entry(a)
  {
  }

  /** The summary does not show the id, the complement or the zip code. */
  lemma EntryIgnoresHiddenFields(a: AddressFields, id: JString, complement: JString, zipCode: JString)
    ensures Entry(a.(id := id, complement := complement, zipCode := zipCode)) == Entry(a)
  {
  }

  /** `entries` joined with `sep` between neighbours. */
  function Join(entries: seq<string>, sep: string): string
    decreases |entries|
  {
    if |entries| == 0 then ""
    else if |entries| == 1 then entries[0]
    else Join(entries[..|entries| - 1], sep) + sep + entries[|entries| - 1]
  }

  /** Joining puts the separator between every two neighbours, and nowhere else. */
  lemma {:induction false} JoinAppend(entries: seq<string>, more: seq<string>, sep: string)
    requires |entries| > 0 && |more| > 0
    ensures Join(entries + more, sep) == Join(entries, sep) + sep + Join(more, sep)
    decreases |more|
  {
    var all := entries + more;
    if |more| == 1 {
      assert all[..|all| - 1] == entries;
    } else {
      var init := more[..|more| - 1];
      assert all[..|all| - 1] == entries + init;
      JoinAppend(entries, init, sep);
    }
  }

  /** The entries of a list of (non-null) address objects, in order. */
  ghost function EntriesOf(list: seq<AddressDTO?>): (entries: seq<string>)
    requires forall i :: 0 <= i < |list| ==> list[i] != null
    reads list
    ensures |entries| == |list|
    ensures forall i :: 0 <= i < |list| ==> entries[i] == Entry(list[i].Fields())
  {
    if |list| == 0 then []
    else EntriesOf(list[..|list| - 1]) + [Entry(list[|list| - 1].Fields())]
  }

  /**
   * The address summary `bind` builds: `NoAddresses` for a null or empty
   * list, otherwise the entries in order separated by blank lines. Every
   * entry is dereferenced, so the list may not hold null.
   */
  method AddressesText(addresses: Option<seq<AddressDTO?>>) returns (text: string)
    requires addresses.Some? ==> forall i :: 0 <= i < |addresses.value| ==> addresses.value[i] != null
    ensures addresses.None? || |addresses.value| == 0 ==> text == NoAddresses
    ensures addresses.Some? && |addresses.value| > 0 ==> text == Join(EntriesOf(addresses.value), EntrySeparator)
  {
    text := "";
    if addresses.Some? && |addresses.value| != 0 {
      var list := addresses.value;
      ghost var entries := EntriesOf(list);
      for i := 0 to |list|
        invariant text == Join(entries[..i], EntrySeparator)
      {
        var address := list[i];
        ghost var before := text;
        if i > 0 {
          text := text + EntrySeparator;
        }
        text := AppendEntry(text, address);
        assert entries[..i + 1][..i] == entries[..i];
        if i == 0 {
          assert text == Entry(address.Fields());
        } else {
          assert text == before + EntrySeparator + Entry(address.Fields());
        }
      }
      assert entries[..|list|] == entries;
    } else {
      text := text + NoAddresses;
    }
  }

  /** One iteration's appends: `text` followed by the entry for `address`. */
  method AppendEntry(text: string, address: AddressDTO) returns (result: string)
    ensures result == text + Entry(address.Fields())
  {
    ghost var f := address.Fields();
    result := AppendTypePart(text, address);
    result := AppendStreetPart(result, address);
    result := AppendNeighborhoodPart(result, address);
    result := AppendCityStatePart(result, address);
    Regroup(text, TypePart(f), StreetPart(f), NeighborhoodPart(f), CityStatePart(f));
  }

  lemma Regroup(p: string, a: string, b: string, c: string, d: string)
    ensures p + a + b + c + d == p + (a + b + c + d)
  {
  }

  method AppendTypePart(text: string, address: AddressDTO) returns (result: string)
    ensures result == text + TypePart(address.Fields())
  {
    result := text;
    var addressType := address.addressType;
    if addressType.Some? {
      result := result + addressType.value.DisplayName() + ": ";
    }
  }

  method AppendStreetPart(text: string, address: AddressDTO) returns (result: string)
    ensures result == text + StreetPart(address.Fields())
  {
    result := text;
    var street := address.street;
    var number := address.number;
    if street.Some? && |street.value| != 0 {
      result := result + street.value;
      if number.Some? && |number.value| != 0 {
        result := result + ", " + number.value;
      }
    }
  }

  method AppendNeighborhoodPart(text: string, address: AddressDTO) returns (result: string)
    ensures result == text + NeighborhoodPart(address.Fields())
  {
    result := text;
    var neighborhood := address.neighborhood;
    if neighborhood.Some? && |neighborhood.value| != 0 {
      result := result + " - " + neighborhood.value;
    }
  }

  method AppendCityStatePart(text: string, address: AddressDTO) returns (result: string)
    ensures result == text + CityStatePart(address.Fields())
  {
    result := text;
    var city := address.city;
    var state := address.state;
    if (city.Some? && |city.value| != 0) || (state.Some? && |state.value| != 0) {
      result := result + ", ";
      if city.Some? && |city.value| != 0 {
        result := result + city.value;
        if state.Some? && |state.value| != 0 {
          result := result + "/" + state.value;
        }
      } else if state.Some? && |state.value| != 0 {
        result := result + state.value;
      }
    }
  }

  // ---------------------------------------------------------------------
  // Backing list

  class PersonAdapter {
    var persons: seq<PersonDTO?>

    constructor()
      ensures persons == []
    {
      persons := [];
    }

    /** `updateList`: the backing list becomes a copy of `newList`; null empties it. */
    method UpdateList(newList: Option<seq<PersonDTO?>>)
      modifies this`persons
      ensures persons == newList.GetOr([])
    {
      persons := [];
      if newList.Some? {
        persons := persons + newList.value;
      }
    }

    /** `removePerson`: removes the entry at an existing position; otherwise nothing changes. */
    method RemovePerson(position: int)
      modifies this`persons
      ensures RemovedAt(old(persons), position, persons)
    {
      if 0 <= position < |persons| {
        persons := persons[..position] + persons[position + 1..];
      }
    }

    /** `addPerson`: appends. */
    method AddPerson(person: PersonDTO?)
      modifies this`persons
      ensures persons == old(persons) + [person]
    {
      persons := persons + [person];
    }
  }
}
