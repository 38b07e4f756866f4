/**
 * Validation of the Brazilian taxpayer numbers CPF (11 digits) and CNPJ
 * (14 digits) by their two mod-11 check digits, of phone numbers by their
 * digit count, and of e-mail addresses (`ValidationUtil`).
 *
 * Every validator first drops the characters outside `[0-9]`, which is what
 * `MaskUtil.Unmask` does, so punctuated input is accepted.
 */
module ValidationUtil {
  import opened Wrappers
  import opened JavaText
  import opened MaskUtil

  // ---------------------------------------------------------------------
  // Check digits

  /**
   * The check digit for a weighted sum: 0 when the remainder mod 11 is 0 or
   * 1, otherwise 11 minus the remainder, which makes the sum plus the digit
   * a multiple of 11. The sums of digits are never negative
   * (`WeightedSumNonNegative`), and there Java's `%` agrees with Dafny's.
   */
  function CheckDigit(sum: int): (d: int)
    ensures 0 <= d <= 9
    ensures d == 0 <==> sum % 11 < 2
    ensures d != 0 ==> (sum + d) % 11 == 0
  {
    var remainder := sum % 11;
    if remainder < 2 then 0 else 11 - remainder
  }

  /** Sum of `DigitValue(digits[i]) * weights[i]` over the digits. */
  function WeightedSum(digits: string, weights: seq<nat>): int
    requires |digits| <= |weights|
  {
    if |digits| == 0 then 0
    else DigitValue(digits[0]) * weights[0] + WeightedSum(digits[1..], weights[1..])
  }

  /** A weighted sum of digits is never negative. */
  lemma {:induction false} WeightedSumNonNegative(digits: string, weights: seq<nat>)
    requires |digits| <= |weights| && AllDigits(digits)
    ensures WeightedSum(digits, weights) >= 0
  {
    if digits != [] {
      WeightedSumNonNegative(digits[1..], weights[1..]);
    }
  }

  /** Extending the summed prefix by one position adds that position's product. */
  lemma {:induction false} WeightedSumSnoc(digits: string, weights: seq<nat>, i: nat)
    requires i < |digits| && i < |weights|
    ensures WeightedSum(digits[..i + 1], weights)
         == WeightedSum(digits[..i], weights) + DigitValue(digits[i]) * weights[i]
  {
    if i > 0 {
      WeightedSumSnoc(digits[1..], weights[1..], i - 1);
      assert digits[..i + 1][1..] == digits[1..][..i];
      assert digits[..i][1..] == digits[1..][..i - 1];
    }
  }

  /** All characters equal the first one (vacuous for fewer than two). */
  predicate AllSame(digits: string) {
    forall i :: 1 <= i < |digits| ==> digits[i] == digits[0]
  }

  // ---------------------------------------------------------------------
  // CPF

  /**
   * The CPF weights n+1, n, ..., 2 of the first n digits: position i weighs
   * 10 - i for the first check digit (n = 9) and 11 - i for the second (n = 10).
   */
  function CpfWeights(n: nat): (w: seq<nat>)
    ensures |w| == n && forall i :: 0 <= i < n ==> w[i] == n + 1 - i
  {
    seq(n, i => n + 1 - i)
  }

  /** Digit 9 checks digits 0..8, digit 10 checks digits 0..9. */
  predicate CpfCheckDigitsHold(d: string)
    requires |d| == 11
  {
    DigitValue(d[9]) == CheckDigit(WeightedSum(d[..9], CpfWeights(9))) &&
    DigitValue(d[10]) == CheckDigit(WeightedSum(d[..10], CpfWeights(10)))
  }

  /** What `isValidCpf` accepts. */
  predicate CpfValid(cpf: JString) {
    !IsEmpty(cpf) &&
    var d := Unmask(cpf.value);
    |d| == 11 && !AllSame(d) && CpfCheckDigitsHold(d)
  }

  /** `isValidCpf`. */
  method IsValidCpf(cpf: JString) returns (valid: bool)
    ensures valid == CpfValid(cpf)
  {
    if IsEmpty(cpf) {
      return false;
    }
    var digits := Unmask(cpf.value);
    if |digits| != 11 {
      return false;
    }

    var allDigitsEqual := true;
    for i := 1 to |digits|
      invariant allDigitsEqual == (forall j :: 1 <= j < i ==> digits[j] == digits[0])
    {
      if digits[i] != digits[0] {
        allDigitsEqual := false;
        assert !AllSame(digits);
        break;
      }
    }
    if allDigitsEqual {
      return false;
    }

    var sum := 0;
    for i := 0 to 9
      invariant sum == WeightedSum(digits[..i], CpfWeights(9))
    {
      WeightedSumSnoc(digits, CpfWeights(9), i);
      sum := sum + DigitValue(digits[i]) * CpfWeights(9)[i];  // weight 10 - i
    }
    var remainder := sum % 11;
    var digit1 := if remainder < 2 then 0 else 11 - remainder;
    assert digit1 == CheckDigit(WeightedSum(digits[..9], CpfWeights(9)));
    if digit1 != DigitValue(digits[9]) {
      return false;
    }

    sum := 0;
    for i := 0 to 10
      invariant sum == WeightedSum(digits[..i], CpfWeights(10))
    {
      WeightedSumSnoc(digits, CpfWeights(10), i);
      sum := sum + DigitValue(digits[i]) * CpfWeights(10)[i];  // weight 11 - i
    }
    remainder := sum % 11;
    var digit2 := if remainder < 2 then 0 else 11 - remainder;
    assert digit2 == CheckDigit(WeightedSum(digits[..10], CpfWeights(10)));
    return digit2 == DigitValue(digits[10]);
  }

  // ---------------------------------------------------------------------
  // CNPJ

  /** Weights for the first and the second CNPJ check digit. */
  const CnpjWeights1: seq<nat> := [5, 4, 3, 2, 9, 8, 7, 6, 5, 4, 3, 2]
  const CnpjWeights2: seq<nat> := [6, 5, 4, 3, 2, 9, 8, 7, 6, 5, 4, 3, 2]

  /** Digit 12 checks digits 0..11, digit 13 checks digits 0..12. */
  predicate CnpjCheckDigitsHold(d: string)
    requires |d| == 14
  {
    DigitValue(d[12]) == CheckDigit(WeightedSum(d[..12], CnpjWeights1)) &&
    DigitValue(d[13]) == CheckDigit(WeightedSum(d[..13], CnpjWeights2))
  }

  /** What `isValidCnpj` accepts. */
  predicate CnpjValid(cnpj: JString) {
    !IsEmpty(cnpj) &&
    var d := Unmask(cnpj.value);
    |d| == 14 && !AllSame(d) && CnpjCheckDigitsHold(d)
  }

  /** `isValidCnpj`. */
  method IsValidCnpj(cnpj: JString) returns (valid: bool)
    ensures valid == CnpjValid(cnpj)
  {
    if IsEmpty(cnpj) {
      return false;
    }
    var digits := Unmask(cnpj.value);
    if |digits| != 14 {
      return false;
    }

    var allDigitsEqual := true;
    for i := 1 to |digits|
      invariant allDigitsEqual == (forall j :: 1 <= j < i ==> digits[j] == digits[0])
    {
      if digits[i] != digits[0] {
        allDigitsEqual := false;
        assert !AllSame(digits);
        break;
      }
    }
    if allDigitsEqual {
      return false;
    }

    var multipliers1 := CnpjWeights1;
    var sum := 0;
    for i := 0 to 12
      invariant sum == WeightedSum(digits[..i], multipliers1)
    {
      WeightedSumSnoc(digits, multipliers1, i);
      sum := sum + DigitValue(digits[i]) * multipliers1[i];
    }
    var remainder := sum % 11;
    var digit1 := if remainder < 2 then 0 else 11 - remainder;
    if digit1 != DigitValue(digits[12]) {
      return false;
    }

    var multipliers2 := CnpjWeights2;
    sum := 0;
    for i := 0 to 13
      invariant sum == WeightedSum(digits[..i], multipliers2)
    {
      WeightedSumSnoc(digits, multipliers2, i);
      sum := sum + DigitValue(digits[i]) * multipliers2[i];
    }
    remainder := sum % 11;
    var digit2 := if remainder < 2 then 0 else 11 - remainder;
    return digit2 == DigitValue(digits[13]);
  }

  // ---------------------------------------------------------------------
  // Phone and e-mail

  /** `isValidPhone`: 10 or 11 digits, whatever the punctuation. */
  function IsValidPhone(phone: JString): (valid: bool)
    ensures valid <==> phone.Some? && (|Unmask(phone.value)| == 10 || |Unmask(phone.value)| == 11)
  {
    if IsEmpty(phone) then false
    else
      var digits := Unmask(phone.value);
      |digits| == 10 || |digits| == 11
  }

  /**
   * `isValidEmail`: null or empty input is rejected; anything else is
   * decided by the platform's e-mail address pattern, `matchesPattern`.
   */
  function IsValidEmail(email: JString, matchesPattern: string -> bool): (valid: bool)
    ensures IsEmpty(email) ==> !valid
    ensures valid <==> !IsEmpty(email) && matchesPattern(email.value)
  {
    if IsEmpty(email) then false else matchesPattern(email.value)
  }

  // ---------------------------------------------------------------------
  // Properties

  /** Removing punctuation beforehand never changes the CPF verdict. */
  lemma CpfIgnoresPunctuation(s: string)
    ensures CpfValid(Some(s)) == CpfValid(Some(Unmask(s)))
  {
    UnmaskIdempotent(s);
  }

  /** Removing punctuation beforehand never changes the CNPJ verdict. */
  lemma CnpjIgnoresPunctuation(s: string)
    ensures CnpjValid(Some(s)) == CnpjValid(Some(Unmask(s)))
  {
    UnmaskIdempotent(s);
  }

  /** Removing punctuation beforehand never changes the phone verdict. */
  lemma PhoneIgnoresPunctuation(s: string)
    ensures IsValidPhone(Some(s)) == IsValidPhone(Some(Unmask(s)))
  {
    UnmaskIdempotent(s);
  }

  /**
   * The first nine digits of a CPF fix its two check digits: two accepted
   * inputs that agree on the first nine digits have the same digits.
   */
  lemma CpfSuffixUnique(a: string, b: string)
    requires CpfValid(Some(a)) && CpfValid(Some(b))
    requires Unmask(a)[..9] == Unmask(b)[..9]
    ensures Unmask(a) == Unmask(b)
  {
    var da, db := Unmask(a), Unmask(b);
    assert da[..9][..9] == da[..9];
    DigitValueInjective(da[9], db[9]);
    assert da[..10] == da[..9] + [da[9]] && db[..10] == db[..9] + [db[9]];
    DigitValueInjective(da[10], db[10]);
    assert da == da[..10] + [da[10]] && db == db[..10] + [db[10]];
  }

  /**
   * The first twelve digits of a CNPJ fix its two check digits.
   */
  lemma CnpjSuffixUnique(a: string, b: string)
    requires CnpjValid(Some(a)) && CnpjValid(Some(b))
    requires Unmask(a)[..12] == Unmask(b)[..12]
    ensures Unmask(a) == Unmask(b)
  {
    var da, db := Unmask(a), Unmask(b);
    DigitValueInjective(da[12], db[12]);
    assert da[..13] == da[..12] + [da[12]] && db[..13] == db[..12] + [db[12]];
    DigitValueInjective(da[13], db[13]);
    assert da == da[..13] + [da[13]] && db == db[..13] + [db[13]];
  }

  /** Sum of a weight table. */
  function Sum(weights: seq<nat>): nat {
    if |weights| == 0 then 0 else weights[0] + Sum(weights[1..])
  }

  /** With one repeated digit, the weighted sum is that digit times the sum of the weights. */
  lemma {:induction false} RepeatedWeightedSum(digits: string, weights: seq<nat>, c: char)
    requires |digits| == |weights|
    requires forall i :: 0 <= i < |digits| ==> digits[i] == c
    ensures WeightedSum(digits, weights) == DigitValue(c) * Sum(weights)
  {
    if digits != [] {
      RepeatedWeightedSum(digits[1..], weights[1..], c);
    }
  }

  /** The CPF weights add up to n(n+3)/2: 54 for nine digits, 65 for ten. */
  lemma {:induction false} CpfWeightsSum(n: nat)
    ensures Sum(CpfWeights(n)) == n * (n + 3) / 2
  {
    if n > 0 {
      assert CpfWeights(n)[1..] == CpfWeights(n - 1);
      CpfWeightsSum(n - 1);
    }
  }

  /** 54 and 65 are both -1 modulo 11, so the check digit of 54v or 65v is v itself. */
  lemma CheckDigitOfRepeated(v: int)
    requires 0 <= v <= 9
    ensures CheckDigit(v * 54) == v && CheckDigit(v * 65) == v
  {
    if v == 0 {
    } else if v == 1 {
    } else if v == 2 {
    } else if v == 3 {
    } else if v == 4 {
    } else if v == 5 {
    } else if v == 6 {
    } else if v == 7 {
    } else if v == 8 {
    } else {
    }
  }

  /**
   * Eleven equal digits always satisfy both CPF check digits, which is why
   * `isValidCpf` has to reject them separately.
   */
  lemma RepeatedDigitsPassCpfCheckDigits(d: string)
    requires |d| == 11 && AllSame(d) && IsDigit(d[0])
    ensures CpfCheckDigitsHold(d)
  {
    var c := d[0];
    var v := DigitValue(c);
    CpfWeightsSum(9);
    CpfWeightsSum(10);
    RepeatedWeightedSum(d[..9], CpfWeights(9), c);
    RepeatedWeightedSum(d[..10], CpfWeights(10), c);
    CheckDigitOfRepeated(v);
    assert WeightedSum(d[..9], CpfWeights(9)) == v * 54;
    assert WeightedSum(d[..10], CpfWeights(10)) == v * 65;
    assert d[9] == c && d[10] == c;
  }

  /** Fourteen zeros satisfy both CNPJ check digits. */
  lemma ZerosPassCnpjCheckDigits(d: string)
    requires |d| == 14 && forall i :: 0 <= i < |d| ==> d[i] == '0'
    ensures CnpjCheckDigitsHold(d)
  {
    ZerosWeightedSum(d[..12], CnpjWeights1);
    ZerosWeightedSum(d[..13], CnpjWeights2);
  }

  /** Zeros weigh nothing, whatever the weights. */
  lemma {:induction false} ZerosWeightedSum(digits: string, weights: seq<nat>)
    requires |digits| <= |weights|
    requires forall i :: 0 <= i < |digits| ==> digits[i] == '0'
    ensures WeightedSum(digits, weights) == 0
  {
    if |digits| > 0 {
      ZerosWeightedSum(digits[1..], weights[1..]);
    }
  }

  /** Digit strings made of one repeated digit are neither CPFs nor CNPJs. */
  lemma RepeatedDigitsRejected(d: string)
    requires AllDigits(d) && AllSame(d)
    ensures !CpfValid(Some(d)) && !CnpjValid(Some(d))
  {
    UnmaskKeepsDigits(d);
  }

  // ---------------------------------------------------------------------
  // Examples

  /** The first CPF sum of the example, position by position. */
  lemma CpfExampleFirstSum(d: string)
    requires d == "52998224725"
    ensures WeightedSum(d[..9], CpfWeights(9)) == 295
    ensures CheckDigit(295) == DigitValue(d[9])
  {
    assert WeightedSum(d[..0], CpfWeights(9)) == 0;
    WeightedSumSnoc(d, CpfWeights(9), 0); assert WeightedSum(d[..1], CpfWeights(9)) == 50;
    WeightedSumSnoc(d, CpfWeights(9), 1); assert WeightedSum(d[..2], CpfWeights(9)) == 68;
    WeightedSumSnoc(d, CpfWeights(9), 2); assert WeightedSum(d[..3], CpfWeights(9)) == 140;
    WeightedSumSnoc(d, CpfWeights(9), 3); assert WeightedSum(d[..4], CpfWeights(9)) == 203;
    WeightedSumSnoc(d, CpfWeights(9), 4); assert WeightedSum(d[..5], CpfWeights(9)) == 251;
    WeightedSumSnoc(d, CpfWeights(9), 5); assert WeightedSum(d[..6], CpfWeights(9)) == 261;
    WeightedSumSnoc(d, CpfWeights(9), 6); assert WeightedSum(d[..7], CpfWeights(9)) == 269;
    WeightedSumSnoc(d, CpfWeights(9), 7); assert WeightedSum(d[..8], CpfWeights(9)) == 281;
    WeightedSumSnoc(d, CpfWeights(9), 8); assert WeightedSum(d[..9], CpfWeights(9)) == 295;
  }

  /** The second CPF sum of the example. */
  lemma CpfExampleSecondSum(d: string)
    requires d == "52998224725"
    ensures WeightedSum(d[..10], CpfWeights(10)) == 347
    ensures CheckDigit(347) == DigitValue(d[10])
  {
    assert WeightedSum(d[..0], CpfWeights(10)) == 0;
    WeightedSumSnoc(d, CpfWeights(10), 0); assert WeightedSum(d[..1], CpfWeights(10)) == 55;
    WeightedSumSnoc(d, CpfWeights(10), 1); assert WeightedSum(d[..2], CpfWeights(10)) == 75;
    WeightedSumSnoc(d, CpfWeights(10), 2); assert WeightedSum(d[..3], CpfWeights(10)) == 156;
    WeightedSumSnoc(d, CpfWeights(10), 3); assert WeightedSum(d[..4], CpfWeights(10)) == 228;
    WeightedSumSnoc(d, CpfWeights(10), 4); assert WeightedSum(d[..5], CpfWeights(10)) == 284;
    WeightedSumSnoc(d, CpfWeights(10), 5); assert WeightedSum(d[..6], CpfWeights(10)) == 296;
    WeightedSumSnoc(d, CpfWeights(10), 6); assert WeightedSum(d[..7], CpfWeights(10)) == 306;
    WeightedSumSnoc(d, CpfWeights(10), 7); assert WeightedSum(d[..8], CpfWeights(10)) == 322;
    WeightedSumSnoc(d, CpfWeights(10), 8); assert WeightedSum(d[..9], CpfWeights(10)) == 343;
    WeightedSumSnoc(d, CpfWeights(10), 9); assert WeightedSum(d[..10], CpfWeights(10)) == 347;
  }

  /** The first CNPJ sum of the example. */
  lemma CnpjExampleFirstSum(d: string)
    requires d == "11444777000161"
    ensures WeightedSum(d[..12], CnpjWeights1) == 214
    ensures CheckDigit(214) == DigitValue(d[12])
  {
    assert WeightedSum(d[..0], CnpjWeights1) == 0;
    WeightedSumSnoc(d, CnpjWeights1, 0); assert WeightedSum(d[..1], CnpjWeights1) == 5;
    WeightedSumSnoc(d, CnpjWeights1, 1); assert WeightedSum(d[..2], CnpjWeights1) == 9;
    WeightedSumSnoc(d, CnpjWeights1, 2); assert WeightedSum(d[..3], CnpjWeights1) == 21;
    WeightedSumSnoc(d, CnpjWeights1, 3); assert WeightedSum(d[..4], CnpjWeights1) == 29;
    WeightedSumSnoc(d, CnpjWeights1, 4); assert WeightedSum(d[..5], CnpjWeights1) == 65;
    WeightedSumSnoc(d, CnpjWeights1, 5); assert WeightedSum(d[..6], CnpjWeights1) == 121;
    WeightedSumSnoc(d, CnpjWeights1, 6); assert WeightedSum(d[..7], CnpjWeights1) == 170;
    WeightedSumSnoc(d, CnpjWeights1, 7); assert WeightedSum(d[..8], CnpjWeights1) == 212;
    WeightedSumSnoc(d, CnpjWeights1, 8); assert WeightedSum(d[..9], CnpjWeights1) == 212;
    WeightedSumSnoc(d, CnpjWeights1, 9); assert WeightedSum(d[..10], CnpjWeights1) == 212;
    WeightedSumSnoc(d, CnpjWeights1, 10); assert WeightedSum(d[..11], CnpjWeights1) == 212;
    WeightedSumSnoc(d, CnpjWeights1, 11); assert WeightedSum(d[..12], CnpjWeights1) == 214;
  }

  /** The second CNPJ sum of the example. */
  lemma CnpjExampleSecondSum(d: string)
    requires d == "11444777000161"
    ensures WeightedSum(d[..13], CnpjWeights2) == 230
    ensures CheckDigit(230) == DigitValue(d[13])
  {
    assert WeightedSum(d[..0], CnpjWeights2) == 0;
    WeightedSumSnoc(d, CnpjWeights2, 0); assert WeightedSum(d[..1], CnpjWeights2) == 6;
    WeightedSumSnoc(d, CnpjWeights2, 1); assert WeightedSum(d[..2], CnpjWeights2) == 11;
    WeightedSumSnoc(d, CnpjWeights2, 2); assert WeightedSum(d[..3], CnpjWeights2) == 27;
    WeightedSumSnoc(d, CnpjWeights2, 3); assert WeightedSum(d[..4], CnpjWeights2) == 39;
    WeightedSumSnoc(d, CnpjWeights2, 4); assert WeightedSum(d[..5], CnpjWeights2) == 47;
    WeightedSumSnoc(d, CnpjWeights2, 5); assert WeightedSum(d[..6], CnpjWeights2) == 110;
    WeightedSumSnoc(d, CnpjWeights2, 6); assert WeightedSum(d[..7], CnpjWeights2) == 166;
    WeightedSumSnoc(d, CnpjWeights2, 7); assert WeightedSum(d[..8], CnpjWeights2) == 215;
    WeightedSumSnoc(d, CnpjWeights2, 8); assert WeightedSum(d[..9], CnpjWeights2) == 215;
    WeightedSumSnoc(d, CnpjWeights2, 9); assert WeightedSum(d[..10], CnpjWeights2) == 215;
    WeightedSumSnoc(d, CnpjWeights2, 10); assert WeightedSum(d[..11], CnpjWeights2) == 215;
    WeightedSumSnoc(d, CnpjWeights2, 11); assert WeightedSum(d[..12], CnpjWeights2) == 218;
    WeightedSumSnoc(d, CnpjWeights2, 12); assert WeightedSum(d[..13], CnpjWeights2) == 230;
  }

  /** The check digits of the example CPF are right. */
  lemma CpfExampleCheckDigits(d: string)
    requires d == "52998224725"
    ensures CpfCheckDigitsHold(d)
  {
    CpfExampleFirstSum(d);
    CpfExampleSecondSum(d);
  }

  /** A CPF whose check digits are right. */
  lemma CpfAcceptsExample(d: string)
    requires d == "52998224725"
    ensures CpfValid(Some(d))
  {
    CpfExampleCheckDigits(d);
    UnmaskKeepsDigits(d);
    assert d[1] != d[0];
  }

  /** The check digits of the example CNPJ are right. */
  lemma CnpjExampleCheckDigits(d: string)
    requires d == "11444777000161"
    ensures CnpjCheckDigitsHold(d)
  {
    CnpjExampleFirstSum(d);
    CnpjExampleSecondSum(d);
  }

  /** A CNPJ whose check digits are right. */
  lemma CnpjAcceptsExample(d: string)
    requires d == "11444777000161"
    ensures CnpjValid(Some(d))
  {
    CnpjExampleCheckDigits(d);
    UnmaskKeepsDigits(d);
    assert d[2] != d[0];
  }
}
