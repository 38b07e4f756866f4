# Person registry core, modelled in Dafny

This project models the core of an Android app that registers persons and
their addresses. The core is made of these parts:

- the Brazilian document and contact validators (CPF, CNPJ, phone and e-mail);
- the input masks that format CPF, CNPJ, phone and zip-code (CEP) fields
  while the user types;
- the person and address types with their spinner positions;
- the DTOs and the mappers between DTOs and the stored records;
- the person form's view model, with its address list and field validation;
- the two list adapters, with their backing lists, item comparisons and
  display texts.

Java `null` strings are `Option<string>` (`JavaText.JString`). Java objects
whose fields are updated in place (the DTOs, the adapters, the view model
and the mask watchers) are Dafny classes whose methods state their whole
new state. Pure helpers are functions with lemmas about them.

Files, one module each:

- `wrappers.dfy` (`Wrappers`) and `java_text.dfy` (`JavaText`): Option, nullable strings, `TextUtils.isEmpty`, digits, upper case.
- `mask_util.dfy` (`MaskUtil`): `unmask`, the four text watchers as the class `MaskedField`, and `formatZipCode`.
- `validation_util.dfy` (`ValidationUtil`): the CPF and CNPJ check-digit algorithms as loops, proved against predicates.
- `person_type.dfy` (`PersonTypes`) and `address_type.dfy` (`AddressTypes`): the two enums.
- `storage.dfy` (`Storage`): the stored `Person`/`Address` records, with exactly the fields the mappers read and write.
- `address_dto.dfy` (`AddressDtos`) and `person_dto.dfy` (`PersonDtos`): the DTO classes.
- `address_mapper.dfy` (`AddressMapping`) and `person_mapper.dfy` (`PersonMapping`): the mappers, specified by pure `Decode`/`Encode` functions with round-trip lemmas.
- `list_edits.dfy` (`ListEdits`): "replace at a valid position, otherwise unchanged" and "remove at a valid position, otherwise unchanged", shared by the view model and the adapters.
- `person_form_view_model.dfy` (`PersonForm`): the view model.
- `address_adapter.dfy` (`AddressAdapters`) and `person_adapter.dfy` (`PersonAdapters`): the adapters.

## Model

| member | source | states |
|---|---|---|
| JavaText.ToUpperCase | app/src/main/java/com/draccoapp/basisnordestetest/viewmodel/PersonFormViewModel.java:473-476 | an upper-case letter is unchanged, each of `a`-`z` becomes the matching letter of `A`-`Z`, every other character is unchanged |
| MaskUtil.Unmask | app/src/main/java/com/draccoapp/basisnordestetest/util/MaskUtil.java:181-183 | the result holds only digits and is no longer than the input |
| MaskUtil.UnmaskKeepsDigits | app/src/main/java/com/draccoapp/basisnordestetest/util/MaskUtil.java:181-183 | a string of digits is unmasked to itself |
| MaskUtil.UnmaskDropsNonDigits | app/src/main/java/com/draccoapp/basisnordestetest/util/MaskUtil.java:181-183 | a string without digits is unmasked to the empty string |
| MaskUtil.UnmaskAppend | app/src/main/java/com/draccoapp/basisnordestetest/util/MaskUtil.java:181-183 | unmasking distributes over concatenation |
| MaskUtil.UnmaskIdempotent | app/src/main/java/com/draccoapp/basisnordestetest/util/MaskUtil.java:181-183 | unmasking twice is unmasking once |
| MaskUtil.PlaceholdersCons | app/src/main/java/com/draccoapp/basisnordestetest/util/MaskUtil.java:29-30 | proof helper for the walk lemmas: the `#` count of a template is its first character's contribution plus the count of the rest |
| MaskUtil.TemplateLiterals | app/src/main/java/com/draccoapp/basisnordestetest/util/MaskUtil.java:13 | no literal character of any of the four templates is a digit |
| MaskUtil.TemplateCapacity | app/src/main/java/com/draccoapp/basisnordestetest/util/MaskUtil.java:13-142 | each of the four templates (lines 13, 56, 99 and 142) has exactly as many `#` slots as its document has digits: CPF 11, CNPJ 14, phone 11, zip 8 |
| MaskUtil.CpfTemplateCapacity | app/src/main/java/com/draccoapp/basisnordestetest/util/MaskUtil.java:13 | the CPF template `###.###.###-##` has 11 slots |
| MaskUtil.CnpjTemplateCapacity | app/src/main/java/com/draccoapp/basisnordestetest/util/MaskUtil.java:56 | the CNPJ template `##.###.###/####-##` has 14 slots |
| MaskUtil.PhoneTemplateCapacity | app/src/main/java/com/draccoapp/basisnordestetest/util/MaskUtil.java:99 | the phone template `(##) #####-####` has 11 slots |
| MaskUtil.ZipCodeTemplateCapacity | app/src/main/java/com/draccoapp/basisnordestetest/util/MaskUtil.java:142 | the zip template `#####-###` has 8 slots |
| MaskUtil.MaskDigits | app/src/main/java/com/draccoapp/basisnordestetest/util/MaskUtil.java:28-40 | the text the template walk builds is never longer than the template |
| MaskUtil.MaskStep | app/src/main/java/com/draccoapp/basisnordestetest/util/MaskUtil.java:29-39 | one step of the walk: a literal while growing is copied; otherwise the next digit is copied, or the walk stops when the digits run out |
| MaskUtil.MaskWhileNotGrowing | app/src/main/java/com/draccoapp/basisnordestetest/util/MaskUtil.java:28-40 | when the digit count did not grow (a deletion), no literal is inserted: the result is the digits, cut to the template's length |
| MaskUtil.MaskWhileGrowingShape | app/src/main/java/com/draccoapp/basisnordestetest/util/MaskUtil.java:28-40 | while growing, the result agrees with the template on every literal position and holds a digit in every slot (which digit: `MaskWhileGrowingOrder`); with enough digits it fills the whole template, otherwise it stops just before the first slot it cannot fill |
| MaskUtil.MaskWhileGrowingOrder | app/src/main/java/com/draccoapp/basisnordestetest/util/MaskUtil.java:28-40 | while growing, the slot at position j holds the digit whose index is the number of slots before j: the digits fill the slots in order, none skipped |
| MaskUtil.MaskWhileGrowingDigits | app/src/main/java/com/draccoapp/basisnordestetest/util/MaskUtil.java:28-40 | while growing, unmasking the result gives the digits back, cut to the template's slot count |
| MaskUtil.MaskIsStable | app/src/main/java/com/draccoapp/basisnordestetest/util/MaskUtil.java:28-40 | for digits that fit the template, the masked text unmasks to the digits and re-masking it gives the same text |
| MaskUtil.CpfPrefixExample | app/src/main/java/com/draccoapp/basisnordestetest/util/MaskUtil.java:13-40 | typing `123` in a CPF field shows `123.` |
| MaskUtil.MaskTruncatesOverflow | app/src/main/java/com/draccoapp/basisnordestetest/util/MaskUtil.java:28-40 | more digits than slots fill the template exactly and the surplus digits are dropped |
| MaskUtil.WalkTemplate | app/src/main/java/com/draccoapp/basisnordestetest/util/MaskUtil.java:28-40 | the watcher's loop over the template computes `MaskDigits` |
| MaskUtil.MaskedField.constructor | app/src/main/java/com/draccoapp/basisnordestetest/util/MaskUtil.java:10-13 | a new watcher uses its kind's template, is not updating, and its previous value and text are empty |
| MaskUtil.MaskedField.OnTextChanged | app/src/main/java/com/draccoapp/basisnordestetest/util/MaskUtil.java:20-43 | during its own echo, the watcher records the digits as the previous value, clears the flag and changes nothing else; otherwise it masks the digits, inserting literals only when there are more digits than before, sets the flag and puts the cursor at the end (the zip watcher clamps it to the text length) |
| MaskUtil.MaskedField.Edit | app/src/main/java/com/draccoapp/basisnordestetest/util/MaskUtil.java:20-43 | a user edit followed by the watcher's own echo leaves the field consistent, with the masked digits of the edit shown and the cursor at the end |
| MaskUtil.TypedDigit | app/src/main/java/com/draccoapp/basisnordestetest/util/MaskUtil.java:181-183 | typing one digit adds exactly that digit to the unmasked value |
| MaskUtil.TypeDigits | app/src/main/java/com/draccoapp/basisnordestetest/util/MaskUtil.java:20-43 | typing digits one by one into an empty field, at most as many as the template has slots, shows the fully grown mask of all of them; typing past a full field is covered by `MaskTruncatesOverflow` |
| MaskUtil.TypeZipCode | app/src/main/java/com/draccoapp/basisnordestetest/util/MaskUtil.java:140-202 | typing eight digits into the zip field shows what `formatZipCode` makes of them |
| MaskUtil.FormatZipCode | app/src/main/java/com/draccoapp/basisnordestetest/util/MaskUtil.java:188-202 | null or empty gives `""`; eight digits give `ddddd-ddd`; otherwise the digits alone |
| MaskUtil.FormatZipCodeKeepsDigits | app/src/main/java/com/draccoapp/basisnordestetest/util/MaskUtil.java:188-202 | formatting keeps exactly the input's digits |
| MaskUtil.ZipMaskShape | app/src/main/java/com/draccoapp/basisnordestetest/util/MaskUtil.java:140-172 | eight digits through the zip watcher give the five digits, `-`, and the other three |
| MaskUtil.ZipMaskMatchesFormat | app/src/main/java/com/draccoapp/basisnordestetest/util/MaskUtil.java:140-202 | the zip watcher and `formatZipCode` agree on eight digits |
| ValidationUtil.CheckDigit | app/src/main/java/com/draccoapp/basisnordestetest/util/ValidationUtil.java:43-44 | the check digit is between 0 and 9; it is 0 exactly when the sum leaves a remainder below 2; otherwise it brings the sum to a multiple of 11 |
| ValidationUtil.WeightedSumNonNegative | app/src/main/java/com/draccoapp/basisnordestetest/util/ValidationUtil.java:39-42 | a weighted digit sum is never negative |
| ValidationUtil.WeightedSumSnoc | app/src/main/java/com/draccoapp/basisnordestetest/util/ValidationUtil.java:40-42 | the sum over one more digit adds that digit times its weight |
| ValidationUtil.CpfWeights | app/src/main/java/com/draccoapp/basisnordestetest/util/ValidationUtil.java:41 | the CPF weights for n digits run from n+1 down to 2 |
| ValidationUtil.CpfValid | app/src/main/java/com/draccoapp/basisnordestetest/util/ValidationUtil.java:13-61 | the CPF rule, stated without loops: non-empty, 11 digits after unmasking, not all one digit, and digits 9 and 10 equal the check digits of the weighted sums of the digits before them |
| ValidationUtil.CnpjValid | app/src/main/java/com/draccoapp/basisnordestetest/util/ValidationUtil.java:68-118 | the CNPJ rule, stated without loops: non-empty, 14 digits after unmasking, not all one digit, and digits 12 and 13 equal the check digits under the two weight tables |
| ValidationUtil.IsValidCpf | app/src/main/java/com/draccoapp/basisnordestetest/util/ValidationUtil.java:13-61 | the loops accept exactly the CPFs that are non-empty, have 11 digits after unmasking, are not all one digit, and whose two check digits hold |
| ValidationUtil.IsValidCnpj | app/src/main/java/com/draccoapp/basisnordestetest/util/ValidationUtil.java:68-118 | the loops accept exactly the CNPJs that are non-empty, have 14 digits after unmasking, are not all one digit, and whose two check digits hold under the weights 5,4,3,2,9,...,2 and 6,5,...,2 |
| ValidationUtil.IsValidPhone | app/src/main/java/com/draccoapp/basisnordestetest/util/ValidationUtil.java:125-135 | a phone is valid exactly when it is non-null and has 10 or 11 digits after unmasking |
| ValidationUtil.IsValidEmail | app/src/main/java/com/draccoapp/basisnordestetest/util/ValidationUtil.java:142-148 | valid exactly when the e-mail is non-null, non-empty and matches the address pattern |
| ValidationUtil.CpfIgnoresPunctuation | app/src/main/java/com/draccoapp/basisnordestetest/util/ValidationUtil.java:19 | a CPF is valid exactly when its digits alone are |
| ValidationUtil.CnpjIgnoresPunctuation | app/src/main/java/com/draccoapp/basisnordestetest/util/ValidationUtil.java:74 | a CNPJ is valid exactly when its digits alone are |
| ValidationUtil.PhoneIgnoresPunctuation | app/src/main/java/com/draccoapp/basisnordestetest/util/ValidationUtil.java:131 | a phone is valid exactly when its digits alone are |
| ValidationUtil.CpfSuffixUnique | app/src/main/java/com/draccoapp/basisnordestetest/util/ValidationUtil.java:38-60 | two valid CPFs with the same first nine digits are the same CPF: the check digits are determined |
| ValidationUtil.CnpjSuffixUnique | app/src/main/java/com/draccoapp/basisnordestetest/util/ValidationUtil.java:93-117 | two valid CNPJs with the same first twelve digits are the same CNPJ |
| ValidationUtil.RepeatedWeightedSum | app/src/main/java/com/draccoapp/basisnordestetest/util/ValidationUtil.java:39-42 | a run of one digit sums to that digit times the sum of the weights |
| ValidationUtil.CpfWeightsSum | app/src/main/java/com/draccoapp/basisnordestetest/util/ValidationUtil.java:41 | the CPF weights for n digits add up to n(n+3)/2 |
| ValidationUtil.CheckDigitOfRepeated | app/src/main/java/com/draccoapp/basisnordestetest/util/ValidationUtil.java:43-57 | for a repeated digit v, both CPF check digits come out as v |
| ValidationUtil.RepeatedDigitsPassCpfCheckDigits | app/src/main/java/com/draccoapp/basisnordestetest/util/ValidationUtil.java:26-36 | every all-same CPF passes the check-digit test, which is why the source rejects such CPFs separately |
| ValidationUtil.ZerosPassCnpjCheckDigits | app/src/main/java/com/draccoapp/basisnordestetest/util/ValidationUtil.java:81-91 | the all-zero CNPJ passes the check-digit test |
| ValidationUtil.ZerosWeightedSum | app/src/main/java/com/draccoapp/basisnordestetest/util/ValidationUtil.java:95-98 | zeros sum to zero under any weights |
| ValidationUtil.RepeatedDigitsRejected | app/src/main/java/com/draccoapp/basisnordestetest/util/ValidationUtil.java:26-36 | a string of one repeated digit is neither a valid CPF nor a valid CNPJ |
| ValidationUtil.CpfExampleFirstSum | app/src/main/java/com/draccoapp/basisnordestetest/util/ValidationUtil.java:39-47 | for `52998224725` the first sum is 295 and its check digit matches |
| ValidationUtil.CpfExampleSecondSum | app/src/main/java/com/draccoapp/basisnordestetest/util/ValidationUtil.java:52-60 | for `52998224725` the second sum is 347 and its check digit matches |
| ValidationUtil.CnpjExampleFirstSum | app/src/main/java/com/draccoapp/basisnordestetest/util/ValidationUtil.java:94-103 | for `11444777000161` the first sum is 214 and its check digit matches |
| ValidationUtil.CnpjExampleSecondSum | app/src/main/java/com/draccoapp/basisnordestetest/util/ValidationUtil.java:108-117 | for `11444777000161` the second sum is 230 and its check digit matches |
| ValidationUtil.CpfExampleCheckDigits | app/src/main/java/com/draccoapp/basisnordestetest/util/ValidationUtil.java:38-60 | both check digits of `52998224725` hold |
| ValidationUtil.CpfAcceptsExample | app/src/main/java/com/draccoapp/basisnordestetest/util/ValidationUtil.java:13-61 | `52998224725` is a valid CPF |
| ValidationUtil.CnpjExampleCheckDigits | app/src/main/java/com/draccoapp/basisnordestetest/util/ValidationUtil.java:93-117 | both check digits of `11444777000161` hold |
| ValidationUtil.CnpjAcceptsExample | app/src/main/java/com/draccoapp/basisnordestetest/util/ValidationUtil.java:68-118 | `11444777000161` is a valid CNPJ |
| PersonTypes.PersonType.Name | app/src/main/java/com/draccoapp/basisnordestetest/model/PersonType.java:7-8 | the constant names `PHYSICAL` and `LEGAL`, which `name()` returns and `valueOf` accepts |
| PersonTypes.PersonType.DisplayName | app/src/main/java/com/draccoapp/basisnordestetest/model/PersonType.java:19-21 | `Pessoa Física` and `Pessoa Jurídica` |
| PersonTypes.PersonType.ToSpinnerPosition | app/src/main/java/com/draccoapp/basisnordestetest/model/PersonType.java:67-75 | the position is a valid index of the values and holds this type |
| PersonTypes.ValuesAreComplete | app/src/main/java/com/draccoapp/basisnordestetest/model/PersonType.java:7-8 | every person type is among the values (`Values`, the constants in declaration order, as `values()` returns them) |
| PersonTypes.SpinnerPositionUnique | app/src/main/java/com/draccoapp/basisnordestetest/model/PersonType.java:67-75 | a type sits at only one position, so the position found is the only one |
| PersonTypes.FromString | app/src/main/java/com/draccoapp/basisnordestetest/model/PersonType.java:28-38 | the result is LEGAL exactly for the string `LEGAL`; null and every other string give PHYSICAL |
| PersonTypes.FromStringOfName | app/src/main/java/com/draccoapp/basisnordestetest/model/PersonType.java:28-38 | reading a type's name back gives the type |
| PersonTypes.FromSpinnerPosition | app/src/main/java/com/draccoapp/basisnordestetest/model/PersonType.java:57-62 | a valid position gives the value there; any other position gives PHYSICAL |
| PersonTypes.GetDisplayNames | app/src/main/java/com/draccoapp/basisnordestetest/model/PersonType.java:43-52 | a new array with one display name per value, in order |
| AddressTypes.AddressType.Name | app/src/main/java/com/draccoapp/basisnordestetest/model/AddressType.java:7-8 | the constant names `RESIDENTIAL` and `COMMERCIAL` |
| AddressTypes.AddressType.DisplayName | app/src/main/java/com/draccoapp/basisnordestetest/model/AddressType.java:19-21 | `Residencial` and `Comercial` |
| AddressTypes.AddressType.ToSpinnerPosition | app/src/main/java/com/draccoapp/basisnordestetest/model/AddressType.java:67-75 | the position is a valid index of the values and holds this type |
| AddressTypes.ValuesAreComplete | app/src/main/java/com/draccoapp/basisnordestetest/model/AddressType.java:7-8 | every address type is among the values (`Values`, the constants in declaration order) |
| AddressTypes.SpinnerPositionUnique | app/src/main/java/com/draccoapp/basisnordestetest/model/AddressType.java:67-75 | a type sits at only one position |
| AddressTypes.FromString | app/src/main/java/com/draccoapp/basisnordestetest/model/AddressType.java:28-38 | the result is COMMERCIAL exactly for the string `COMMERCIAL`; null and every other string give RESIDENTIAL |
| AddressTypes.FromStringOfName | app/src/main/java/com/draccoapp/basisnordestetest/model/AddressType.java:28-38 | reading a type's name back gives the type |
| AddressTypes.FromSpinnerPosition | app/src/main/java/com/draccoapp/basisnordestetest/model/AddressType.java:57-62 | a valid position gives the value there; any other position gives RESIDENTIAL |
| AddressTypes.GetDisplayNames | app/src/main/java/com/draccoapp/basisnordestetest/model/AddressType.java:43-52 | a new array with one display name per value, in order |
| AddressDtos.AddressDTO.constructor | app/src/main/java/com/draccoapp/basisnordestetest/model/dto/AddressDTO.java:17-19 | a new address is residential with every other field null |
| AddressDtos.AddressDTO.GetAddressTypeString | app/src/main/java/com/draccoapp/basisnordestetest/model/dto/AddressDTO.java:39-41 | the string is one of the two type names and reads back as the type, null read as residential |
| AddressDtos.AddressDTO.SetId | app/src/main/java/com/draccoapp/basisnordestetest/model/dto/AddressDTO.java:26-28 | only the id changes, to the given value |
| AddressDtos.AddressDTO.SetAddressType | app/src/main/java/com/draccoapp/basisnordestetest/model/dto/AddressDTO.java:34-36 | only the type changes, to the given value |
| AddressDtos.AddressDTO.SetAddressTypeString | app/src/main/java/com/draccoapp/basisnordestetest/model/dto/AddressDTO.java:44-46 | only the type changes, to the parse of the string; null gives residential |
| AddressDtos.AddressDTO.SetStreet | app/src/main/java/com/draccoapp/basisnordestetest/model/dto/AddressDTO.java:52-54 | only the street changes |
| AddressDtos.AddressDTO.SetNumber | app/src/main/java/com/draccoapp/basisnordestetest/model/dto/AddressDTO.java:60-62 | only the number changes |
| AddressDtos.AddressDTO.SetComplement | app/src/main/java/com/draccoapp/basisnordestetest/model/dto/AddressDTO.java:68-70 | only the complement changes |
| AddressDtos.AddressDTO.SetNeighborhood | app/src/main/java/com/draccoapp/basisnordestetest/model/dto/AddressDTO.java:76-78 | only the neighborhood changes |
| AddressDtos.AddressDTO.SetZipCode | app/src/main/java/com/draccoapp/basisnordestetest/model/dto/AddressDTO.java:84-86 | only the zip code changes |
| AddressDtos.AddressDTO.SetCity | app/src/main/java/com/draccoapp/basisnordestetest/model/dto/AddressDTO.java:92-94 | only the city changes |
| AddressDtos.AddressDTO.SetState | app/src/main/java/com/draccoapp/basisnordestetest/model/dto/AddressDTO.java:100-102 | only the state changes |
| PersonDtos.PersonDTO.constructor | app/src/main/java/com/draccoapp/basisnordestetest/model/dto/PersonDTO.java:24-34 | a new person is physical, with empty name, CPF, company name, CNPJ, phone and e-mail, an empty address list, the creation time given, position 0,0, and null id and device |
| PersonDtos.PersonDTO.GetPersonTypeString | app/src/main/java/com/draccoapp/basisnordestetest/model/dto/PersonDTO.java:54-56 | the string is one of the two type names and reads back as the type, null read as physical |
| PersonDtos.PersonDTO.AddAddress | app/src/main/java/com/draccoapp/basisnordestetest/model/dto/PersonDTO.java:119-121 | only the address list changes: the address is appended at its end |
| PersonDtos.PersonDTO.SetId | app/src/main/java/com/draccoapp/basisnordestetest/model/dto/PersonDTO.java:41-43 | only the id changes |
| PersonDtos.PersonDTO.SetPersonType | app/src/main/java/com/draccoapp/basisnordestetest/model/dto/PersonDTO.java:49-51 | only the type changes |
| PersonDtos.PersonDTO.SetPersonTypeString | app/src/main/java/com/draccoapp/basisnordestetest/model/dto/PersonDTO.java:59-61 | only the type changes, to the parse of the string; null gives physical |
| PersonDtos.PersonDTO.SetName | app/src/main/java/com/draccoapp/basisnordestetest/model/dto/PersonDTO.java:67-69 | only the name changes |
| PersonDtos.PersonDTO.SetCpf | app/src/main/java/com/draccoapp/basisnordestetest/model/dto/PersonDTO.java:75-77 | only the CPF changes |
| PersonDtos.PersonDTO.SetCompanyName | app/src/main/java/com/draccoapp/basisnordestetest/model/dto/PersonDTO.java:83-85 | only the company name changes |
| PersonDtos.PersonDTO.SetCnpj | app/src/main/java/com/draccoapp/basisnordestetest/model/dto/PersonDTO.java:91-93 | only the CNPJ changes |
| PersonDtos.PersonDTO.SetPhoneNumber | app/src/main/java/com/draccoapp/basisnordestetest/model/dto/PersonDTO.java:99-101 | only the phone changes |
| PersonDtos.PersonDTO.SetEmail | app/src/main/java/com/draccoapp/basisnordestetest/model/dto/PersonDTO.java:107-109 | only the e-mail changes |
| PersonDtos.PersonDTO.SetAddresses | app/src/main/java/com/draccoapp/basisnordestetest/model/dto/PersonDTO.java:115-117 | only the address list changes |
| PersonDtos.PersonDTO.SetCreatedAt | app/src/main/java/com/draccoapp/basisnordestetest/model/dto/PersonDTO.java:127-129 | only the creation time changes |
| PersonDtos.PersonDTO.SetLatitude | app/src/main/java/com/draccoapp/basisnordestetest/model/dto/PersonDTO.java:135-137 | only the latitude changes |
| PersonDtos.PersonDTO.SetLongitude | app/src/main/java/com/draccoapp/basisnordestetest/model/dto/PersonDTO.java:143-145 | only the longitude changes |
| PersonDtos.PersonDTO.SetDeviceName | app/src/main/java/com/draccoapp/basisnordestetest/model/dto/PersonDTO.java:151-153 | only the device name changes |
| AddressMapping.Decode | app/src/main/java/com/draccoapp/basisnordestetest/model/mapper/AddressMapper.java:21-37 | the DTO's type is the parse of the stored type string, residential for null; every other field is copied |
| AddressMapping.Encode | app/src/main/java/com/draccoapp/basisnordestetest/model/mapper/AddressMapper.java:49-65 | the stored type is always set, to the type's name, `RESIDENTIAL` for a null type |
| AddressMapping.DecodeEncode | app/src/main/java/com/draccoapp/basisnordestetest/model/mapper/AddressMapper.java:21-65 | storing and reading back gives the DTO's fields, a null type turned residential |
| AddressMapping.EncodeDecode | app/src/main/java/com/draccoapp/basisnordestetest/model/mapper/AddressMapper.java:21-65 | reading and storing back gives the record, its type string normalised to a type name |
| AddressMapping.EncodeDecodeOfName | app/src/main/java/com/draccoapp/basisnordestetest/model/mapper/AddressMapper.java:21-65 | a record whose type string is a type name survives the round trip unchanged |
| AddressMapping.FromRealm | app/src/main/java/com/draccoapp/basisnordestetest/model/mapper/AddressMapper.java:21-37 | null gives null; otherwise a new DTO holding the decoded fields |
| AddressMapping.FromRealmList | app/src/main/java/com/draccoapp/basisnordestetest/model/mapper/AddressMapper.java:39-47 | null gives null; otherwise a list of the same length whose entries are the converted records, in order, each new |
| AddressMapping.ToRealm | app/src/main/java/com/draccoapp/basisnordestetest/model/mapper/AddressMapper.java:49-65 | null gives null; otherwise the encoded record of the DTO's fields |
| PersonMapping.Decode | app/src/main/java/com/draccoapp/basisnordestetest/model/mapper/PersonMapper.java:27-51 | the DTO's type is the parse of the stored type string, physical for null; every other scalar is copied |
| PersonMapping.Encode | app/src/main/java/com/draccoapp/basisnordestetest/model/mapper/PersonMapper.java:63-91 | the stored type is always set, to the type's name, `PHYSICAL` for a null type; the scalars are copied and no address list is set |
| PersonMapping.DecodeEncode | app/src/main/java/com/draccoapp/basisnordestetest/model/mapper/PersonMapper.java:27-91 | storing and reading back gives the DTO's scalars, a null type turned physical |
| PersonMapping.EncodeDecode | app/src/main/java/com/draccoapp/basisnordestetest/model/mapper/PersonMapper.java:27-91 | reading and storing back the scalars gives the record, its type string normalised to a type name |
| PersonMapping.FillScalars | app/src/main/java/com/draccoapp/basisnordestetest/model/mapper/PersonMapper.java:30-43 | a new DTO with the decoded scalars and an empty address list |
| PersonMapping.FromRealm | app/src/main/java/com/draccoapp/basisnordestetest/model/mapper/PersonMapper.java:27-51 | null gives null; otherwise a new DTO with the decoded scalars, an empty address list when the record has none, and otherwise one new converted address per stored address, in order |
| PersonMapping.FromRealmList | app/src/main/java/com/draccoapp/basisnordestetest/model/mapper/PersonMapper.java:53-61 | null gives null; otherwise one converted person per record, in order |
| PersonMapping.ToRealm | app/src/main/java/com/draccoapp/basisnordestetest/model/mapper/PersonMapper.java:63-91 | null gives null; otherwise the encoded scalars, and when the DTO has an address list, one converted address per entry, in order |
| ListEdits.ReplacedAtIsUpdate | app/src/main/java/com/draccoapp/basisnordestetest/viewmodel/PersonFormViewModel.java:219-225 | at a valid position, replacing is exactly a sequence update at that position |
| ListEdits.RemovedAtMultiset | app/src/main/java/com/draccoapp/basisnordestetest/viewmodel/PersonFormViewModel.java:227-233 | removing at a valid position loses exactly the entry at that position |
| PersonForm.FirstFailure | app/src/main/java/com/draccoapp/basisnordestetest/viewmodel/PersonFormViewModel.java:375-455 | no message exactly when the type is set, the identity fields of that type are filled and valid, and the phone and e-mail are valid |
| PersonForm.PhysicalIgnoresCompanyFields | app/src/main/java/com/draccoapp/basisnordestetest/viewmodel/PersonFormViewModel.java:387-404 | a physical person's outcome does not depend on the company name or the CNPJ |
| PersonForm.LegalIgnoresPersonalFields | app/src/main/java/com/draccoapp/basisnordestetest/viewmodel/PersonFormViewModel.java:404-421 | a legal person's outcome does not depend on the name or the CPF |
| PersonForm.ContactChecksComeLast | app/src/main/java/com/draccoapp/basisnordestetest/viewmodel/PersonFormViewModel.java:423-446 | a phone or e-mail message means the identity fields passed, and an e-mail message means the phone passed |
| PersonForm.Capitalize | app/src/main/java/com/draccoapp/basisnordestetest/viewmodel/PersonFormViewModel.java:468-478 | null or empty gives `""`; otherwise the same string with its first character upper-cased, unchanged when it already was upper case |
| PersonForm.CapitalizeIdempotent | app/src/main/java/com/draccoapp/basisnordestetest/viewmodel/PersonFormViewModel.java:468-478 | capitalising twice is capitalising once |
| PersonForm.PersonFormViewModel.constructor | app/src/main/java/com/draccoapp/basisnordestetest/viewmodel/PersonFormViewModel.java:53-66 | a new form holds a default person and an empty address list, no error, and physical type with empty fields |
| PersonForm.PersonFormViewModel.LoadPerson | app/src/main/java/com/draccoapp/basisnordestetest/viewmodel/PersonFormViewModel.java:153-161 | without an id, the form gets a new physical person and an empty address list |
| PersonForm.PersonFormViewModel.AddAddress | app/src/main/java/com/draccoapp/basisnordestetest/viewmodel/PersonFormViewModel.java:205-217 | the list, empty when null, gets one new residential address with the given id at its end, and keeps its other entries |
| PersonForm.PersonFormViewModel.UpdateAddress | app/src/main/java/com/draccoapp/basisnordestetest/viewmodel/PersonFormViewModel.java:219-225 | a null list stays null; otherwise the entry at a valid position is replaced and any other position changes nothing |
| PersonForm.PersonFormViewModel.RemoveAddress | app/src/main/java/com/draccoapp/basisnordestetest/viewmodel/PersonFormViewModel.java:227-233 | a null list stays null; otherwise the entry at a valid position is removed and any other position changes nothing |
| PersonForm.PersonFormViewModel.ValidateFields | app/src/main/java/com/draccoapp/basisnordestetest/viewmodel/PersonFormViewModel.java:375-455 | the error is the first failing check's message, or null; the result is true exactly when the form is valid; a null address list becomes empty only on success |
| AddressAdapters.AreItemsTheSame | app/src/main/java/com/draccoapp/basisnordestetest/ui/adapters/AddressAdapter.java:27-29 | the old item has an id and the new item has the same one |
| AddressAdapters.AreContentsTheSame | app/src/main/java/com/draccoapp/basisnordestetest/ui/adapters/AddressAdapter.java:32-42 | street, number, complement, neighborhood, zip code, city and state each equal, two nulls counting as equal, and the same type |
| AddressAdapters.ItemsTheSameSymmetric | app/src/main/java/com/draccoapp/basisnordestetest/ui/adapters/AddressAdapter.java:27-29 | two addresses that are the same item are so the other way round too |
| AddressAdapters.ItemWithoutIdIsNew | app/src/main/java/com/draccoapp/basisnordestetest/ui/adapters/AddressAdapter.java:27-29 | an address without an id is never the same item as another |
| AddressAdapters.ContentsTheSameIff | app/src/main/java/com/draccoapp/basisnordestetest/ui/adapters/AddressAdapter.java:32-42 | same contents exactly when all fields but the id are equal |
| AddressAdapters.ContentsTheSameReflexive | app/src/main/java/com/draccoapp/basisnordestetest/ui/adapters/AddressAdapter.java:32-42 | every address has the same contents as itself |
| AddressAdapters.ContentsTheSameSymmetric | app/src/main/java/com/draccoapp/basisnordestetest/ui/adapters/AddressAdapter.java:32-42 | content comparison is symmetric |
| AddressAdapters.StreetLine | app/src/main/java/com/draccoapp/basisnordestetest/ui/adapters/AddressAdapter.java:109-111 | the street (empty for null), followed by `, ` and the number only when the number is non-empty |
| AddressAdapters.CityState | app/src/main/java/com/draccoapp/basisnordestetest/ui/adapters/AddressAdapter.java:126-136 | the city/state text: the city, then `/` and the state when both are non-empty; the state alone when the city is empty |
| AddressAdapters.CityStateShape | app/src/main/java/com/draccoapp/basisnordestetest/ui/adapters/AddressAdapter.java:126-136 | `city/state` when both are present, the one present when only one is, `""` when neither |
| AddressAdapters.CityStateText | app/src/main/java/com/draccoapp/basisnordestetest/ui/adapters/AddressAdapter.java:126-137 | the row's city/state text, null fields read as empty |
| AddressAdapters.ZipLine | app/src/main/java/com/draccoapp/basisnordestetest/ui/adapters/AddressAdapter.java:140-149 | hidden for a null or empty zip code; otherwise `CEP: ` followed by `ddddd-ddd` for eight characters and the zip code as it is otherwise |
| AddressAdapters.ZipLineMatchesFormat | app/src/main/java/com/draccoapp/basisnordestetest/ui/adapters/AddressAdapter.java:140-149 | for a zip code of digits the row shows `CEP: ` and what `formatZipCode` makes of it |
| AddressAdapters.AddressAdapter.constructor | app/src/main/java/com/draccoapp/basisnordestetest/ui/adapters/AddressAdapter.java:46 | the backing list starts empty |
| AddressAdapters.AddressAdapter.UpdateList | app/src/main/java/com/draccoapp/basisnordestetest/ui/adapters/AddressAdapter.java:58-64 | the backing list becomes the new list, empty for null |
| AddressAdapters.AddressAdapter.RemoveAddress | app/src/main/java/com/draccoapp/basisnordestetest/ui/adapters/AddressAdapter.java:66-71 | the entry at a valid position is removed; any other position changes nothing |
| AddressAdapters.AddressAdapter.AddAddress | app/src/main/java/com/draccoapp/basisnordestetest/ui/adapters/AddressAdapter.java:73-76 | the address is appended |
| PersonAdapters.AreItemsTheSame | app/src/main/java/com/draccoapp/basisnordestetest/ui/adapters/PersonAdapter.java:29-31 | both persons have ids and the ids are equal |
| PersonAdapters.ItemsTheSameSymmetric | app/src/main/java/com/draccoapp/basisnordestetest/ui/adapters/PersonAdapter.java:29-31 | being the same item is symmetric and needs the same non-null id |
| PersonAdapters.ContentsComparable | app/src/main/java/com/draccoapp/basisnordestetest/ui/adapters/PersonAdapter.java:36-39 | the comparison does not throw: the old item's name is non-null, and each of its e-mail, phone and type is non-null when every comparison before it succeeded |
| PersonAdapters.AreContentsTheSame | app/src/main/java/com/draccoapp/basisnordestetest/ui/adapters/PersonAdapter.java:33-46 | equal name, e-mail, phone and type, and null-safe equal CPF, CNPJ and company name |
| PersonAdapters.ContentsTheSameIff | app/src/main/java/com/draccoapp/basisnordestetest/ui/adapters/PersonAdapter.java:33-46 | same contents exactly when everything but id, creation time, position and device is equal; the addresses are not compared |
| PersonAdapters.ContentsTheSameReflexive | app/src/main/java/com/draccoapp/basisnordestetest/ui/adapters/PersonAdapter.java:33-46 | a person with name, e-mail, phone and type set can be compared with itself and has the same contents |
| PersonAdapters.ContentsTheSameSymmetric | app/src/main/java/com/draccoapp/basisnordestetest/ui/adapters/PersonAdapter.java:33-46 | same contents one way round can be checked and holds the other way round |
| PersonAdapters.FormatCpf | app/src/main/java/com/draccoapp/basisnordestetest/ui/adapters/PersonAdapter.java:226-230 | unchanged unless 11 characters long; otherwise 14 characters with `.`, `.`, `-` at positions 3, 7, 11, and removing them gives the input back |
| PersonAdapters.FormatCnpj | app/src/main/java/com/draccoapp/basisnordestetest/ui/adapters/PersonAdapter.java:232-236 | unchanged unless 14 characters long; otherwise 18 characters with `.`, `.`, `/`, `-` at positions 2, 6, 10, 15, and removing them gives the input back |
| PersonAdapters.FormatPhone | app/src/main/java/com/draccoapp/basisnordestetest/ui/adapters/PersonAdapter.java:238-255 | null gives `""`; 11 digits give `(dd) ddddd-dddd`; 10 digits give `(dd) dddd-dddd`; otherwise the input as it is |
| PersonAdapters.UnmaskSeparated | app/src/main/java/com/draccoapp/basisnordestetest/ui/adapters/PersonAdapter.java:228-235 | a separator without digits disappears on unmasking |
| PersonAdapters.FormatCpfKeepsDigits | app/src/main/java/com/draccoapp/basisnordestetest/ui/adapters/PersonAdapter.java:226-230 | a formatted 11-digit CPF unmasks to the CPF |
| PersonAdapters.FormatCnpjKeepsDigits | app/src/main/java/com/draccoapp/basisnordestetest/ui/adapters/PersonAdapter.java:232-236 | a formatted 14-digit CNPJ unmasks to the CNPJ |
| PersonAdapters.PhoneLayoutDigits | app/src/main/java/com/draccoapp/basisnordestetest/ui/adapters/PersonAdapter.java:243-252 | the phone layout unmasks to its digits |
| PersonAdapters.FormatPhoneKeepsDigits | app/src/main/java/com/draccoapp/basisnordestetest/ui/adapters/PersonAdapter.java:238-255 | formatting a phone never changes its digits |
| PersonAdapters.FormatPhoneIdempotent | app/src/main/java/com/draccoapp/basisnordestetest/ui/adapters/PersonAdapter.java:238-255 | formatting a formatted phone changes nothing |
| PersonAdapters.Entry | app/src/main/java/com/draccoapp/basisnordestetest/ui/adapters/PersonAdapter.java:150-185 | one address's summary: its type part, street part, neighborhood part and city/state part, in that order |
| PersonAdapters.TypePart | app/src/main/java/com/draccoapp/basisnordestetest/ui/adapters/PersonAdapter.java:150-154 | the type's display name and `: ` when the type is set, otherwise nothing |
| PersonAdapters.StreetPart | app/src/main/java/com/draccoapp/basisnordestetest/ui/adapters/PersonAdapter.java:156-164 | the street when non-empty, followed by `, ` and the number when that is non-empty too |
| PersonAdapters.NeighborhoodPart | app/src/main/java/com/draccoapp/basisnordestetest/ui/adapters/PersonAdapter.java:166-170 | ` - ` and the neighborhood when non-empty |
| PersonAdapters.CityStatePart | app/src/main/java/com/draccoapp/basisnordestetest/ui/adapters/PersonAdapter.java:172-185 | `, ` and the city/state text when the city or the state is non-empty |
| PersonAdapters.Join | app/src/main/java/com/draccoapp/basisnordestetest/ui/adapters/PersonAdapter.java:144-148 | the entries in order with the separator between neighbours: the text the loop builds by appending the separator before every entry but the first |
| PersonAdapters.EntryNumberNeedsStreet | app/src/main/java/com/draccoapp/basisnordestetest/ui/adapters/PersonAdapter.java:157-164 | without a street, the number does not appear in the entry |
| PersonAdapters.EntryIgnoresHiddenFields | app/src/main/java/com/draccoapp/basisnordestetest/ui/adapters/PersonAdapter.java:150-185 | the entry does not show the id, the complement or the zip code |
| PersonAdapters.JoinAppend | app/src/main/java/com/draccoapp/basisnordestetest/ui/adapters/PersonAdapter.java:144-148 | joining two non-empty runs of entries puts one separator between them |
| PersonAdapters.EntriesOf | app/src/main/java/com/draccoapp/basisnordestetest/ui/adapters/PersonAdapter.java:144-186 | one entry per address, in order |
| PersonAdapters.AddressesText | app/src/main/java/com/draccoapp/basisnordestetest/ui/adapters/PersonAdapter.java:142-190 | `Nenhum endereço cadastrado` for a null or empty list; otherwise the entries of the addresses, in order, joined by a blank line |
| PersonAdapters.AppendEntry | app/src/main/java/com/draccoapp/basisnordestetest/ui/adapters/PersonAdapter.java:150-185 | the loop body appends exactly one address's entry |
| PersonAdapters.AppendTypePart | app/src/main/java/com/draccoapp/basisnordestetest/ui/adapters/PersonAdapter.java:150-154 | appends the type's display name and `: ` when the type is set |
| PersonAdapters.AppendStreetPart | app/src/main/java/com/draccoapp/basisnordestetest/ui/adapters/PersonAdapter.java:156-164 | appends the street and number part of the entry |
| PersonAdapters.AppendNeighborhoodPart | app/src/main/java/com/draccoapp/basisnordestetest/ui/adapters/PersonAdapter.java:166-170 | appends ` - ` and the neighborhood when present |
| PersonAdapters.AppendCityStatePart | app/src/main/java/com/draccoapp/basisnordestetest/ui/adapters/PersonAdapter.java:172-185 | appends `, ` and the city/state text when either is present |
| PersonAdapters.PersonAdapter.constructor | app/src/main/java/com/draccoapp/basisnordestetest/ui/adapters/PersonAdapter.java:50 | the backing list starts empty |
| PersonAdapters.PersonAdapter.UpdateList | app/src/main/java/com/draccoapp/basisnordestetest/ui/adapters/PersonAdapter.java:64-70 | the backing list becomes the new list, empty for null |
| PersonAdapters.PersonAdapter.RemovePerson | app/src/main/java/com/draccoapp/basisnordestetest/ui/adapters/PersonAdapter.java:72-77 | the entry at a valid position is removed; any other position changes nothing |
| PersonAdapters.PersonAdapter.AddPerson | app/src/main/java/com/draccoapp/basisnordestetest/ui/adapters/PersonAdapter.java:79-82 | the person is appended |

The round trip `toSpinnerPosition(fromSpinnerPosition(p)) == p` for a valid
position follows from `ToSpinnerPosition`'s contract together with
`SpinnerPositionUnique`; it is not a lemma of its own because a lemma cannot
call a method.

## Left out

- The e-mail pattern (`Patterns.EMAIL_ADDRESS`) is Android's regular expression; it is a parameter `matchesPattern` of `IsValidEmail`, `FirstFailure` and `ValidateFields`.
- PersonForm.PersonFormViewModel.LoadPerson: only the branch without an id is modelled (it requires an empty id). The other branch reads the local database, whose repository is not part of this model.
- PersonDtos.PersonDTO.AddAddress: requires a non-null list; Java would throw a `NullPointerException` on a null list.
- PersonAdapters.AddressesText: requires non-null entries; Java would throw on a null entry.
- PersonAdapters.AreContentsTheSame: requires that the fields Java dereferences are non-null (`ContentsComparable`); Java would throw otherwise.
- Java lists are modelled as sequence values held in fields. Aliasing between lists shared by two objects is not modelled. For example, the view model updates its address list in place and then sets it again.
- Latitude and longitude are `double` in Java and `real` here; they are only copied.
- JavaText.ToUpperCase: `Character.isUpperCase`/`toUpperCase` are modelled for ASCII letters only, so a non-ASCII lower-case first letter (such as `é`) stays unchanged where Java upper-cases it.
- Dafny strings are sequences of Unicode scalar values, while Java's `length()`, `charAt` and `substring` count UTF-16 code units. The length tests in `FormatCpf`, `FormatCnpj`, `ZipLine` and the masks, and the first character in `Capitalize`, therefore differ from Java on characters outside the Basic Multilingual Plane, such as emoji.
- The four text watchers differ only in their template (and the zip watcher's cursor clamp), so they share one class, `MaskUtil.MaskedField`. The `EditText` itself is the field's `text` and `cursor`, and the echo of `setText` is an explicit second call (`Edit`).
- `toSpinnerPosition` ends in a fallback `return 0` that no enum value can reach; the model's loop has no such path.
- The CPF loops multiply by `10 - i` and `11 - i`. The model reads those weights from `CpfWeights`, whose contract says they are exactly `10 - i` and `11 - i`.
- The stored records `Person` and `Address` (Realm classes) are not part of this model. `Storage` gives them the fields the mappers use, and a new record's fields are taken to be null, 0 or empty.
- Random UUIDs (`AddAddress`) and the clock (`new PersonDTO()`) are parameters.
- `savePerson`, location, Firestore, notifications, `obtainDeviceName` and the rest of the view model's Android and network work are left out: they are I/O.
- `AsyncListDiffer` runs asynchronously, so the adapters' getters that read the differ's list (`getPersonAt`, `getAddress`, `getItemCount`) and the view binding are left out. The texts modelled are the street, city/state and zip lines of an address row, the address summary of a person row, and the CPF, CNPJ and phone formatters. The other row texts are left out: a person row's name or company name, its contact line and its `CPF: `/`CNPJ: `/`Tel: `/`Email: ` lines with their null handling, and an address row's type label, complement and neighborhood.
- The DTO getters are plain field reads and have no members of their own.
