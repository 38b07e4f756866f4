/**
 * Incremental input masking for the CPF, CNPJ, phone and zip-code fields
 * (`MaskUtil`): the digit filter `unmask`, the template walk that each text
 * watcher runs on every change, the watcher state kept per field, and the
 * `formatZipCode` display helper.
 */
module MaskUtil {
  import opened Wrappers
  import opened JavaText

  function Min(a: int, b: int): int {
    if a <= b then a else b
  }

  // ---------------------------------------------------------------------
  // unmask

  /** `unmask`: drops every character outside `[0-9]`. */
  function Unmask(s: string): (r: string)
    ensures |r| <= |s|
    ensures AllDigits(r)
  {
    if |s| == 0 then []
    else (if IsDigit(s[0]) then [s[0]] else []) + Unmask(s[1..])
  }

  /** A string that is all digits is left as it is. */
  lemma {:induction false} UnmaskKeepsDigits(s: string)
    requires AllDigits(s)
    ensures Unmask(s) == s
  {
    if s != [] {
      UnmaskKeepsDigits(s[1..]);
    }
  }

  /** A string without digits unmasks to the empty string. */
  lemma {:induction false} UnmaskDropsNonDigits(s: string)
    requires forall i :: 0 <= i < |s| ==> !IsDigit(s[i])
    ensures Unmask(s) == []
  {
    if s != [] {
      UnmaskDropsNonDigits(s[1..]);
    }
  }

  /** Unmasking works piece by piece: the digits of a concatenation, in order. */
  lemma {:induction false} UnmaskAppend(a: string, b: string)
    ensures Unmask(a + b) == Unmask(a) + Unmask(b)
  {
    if a != [] {
      assert (a + b)[0] == a[0];
      assert (a + b)[1..] == a[1..] + b;
      UnmaskAppend(a[1..], b);
    } else {
      assert a + b == b;
    }
  }

  /** Applying `unmask` twice gives the same result as applying it once. */
  lemma UnmaskIdempotent(s: string)
    ensures Unmask(Unmask(s)) == Unmask(s)
  {
    UnmaskKeepsDigits(Unmask(s));
  }

  // ---------------------------------------------------------------------
  // Templates

  /** The four masked fields; each watcher differs only in its template. */
  datatype MaskKind = CpfMask | CnpjMask | PhoneMask | ZipCodeMask

  function Template(kind: MaskKind): string {
    match kind
    case CpfMask => "###.###.###-##"
    case CnpjMask => "##.###.###/####-##"
    case PhoneMask => "(##) #####-####"
    case ZipCodeMask => "#####-###"
  }

  /** Number of `#` placeholders, i.e. digits a template can hold. */
  function Placeholders(t: string): nat {
    multiset(t)['#']
  }

  /** Counting from the front: the first position, then the rest. */
  lemma PlaceholdersCons(t: string)
    requires |t| > 0
    ensures Placeholders(t) == (if t[0] == '#' then 1 else 0) + Placeholders(t[1..])
  {
    assert t == [t[0]] + t[1..];
  }

  /** No literal of the template is a digit, so unmasking removes all of them. */
  predicate LiteralsAreNotDigits(t: string) {
    forall j :: 0 <= j < |t| && t[j] != '#' ==> !IsDigit(t[j])
  }

  lemma TemplateLiterals(kind: MaskKind)
    ensures LiteralsAreNotDigits(Template(kind))
  {
  }

  /** Digits each field holds: 11 for CPF and phone, 14 for CNPJ, 8 for the zip code. */
  function Capacity(kind: MaskKind): nat {
    match kind
    case CpfMask => 11
    case CnpjMask => 14
    case PhoneMask => 11
    case ZipCodeMask => 8
  }

  /** Each template has room for exactly the digits of its document. */
  lemma TemplateCapacity(kind: MaskKind)
    ensures Placeholders(Template(kind)) == Capacity(kind)
  {
    match kind
    case CpfMask => CpfTemplateCapacity();
    case CnpjMask => CnpjTemplateCapacity();
    case PhoneMask => PhoneTemplateCapacity();
    case ZipCodeMask => ZipCodeTemplateCapacity();
  }

  lemma CpfTemplateCapacity() ensures Placeholders(Template(CpfMask)) == 11 {}
  lemma CnpjTemplateCapacity() ensures Placeholders(Template(CnpjMask)) == 14 {}
  lemma PhoneTemplateCapacity() ensures Placeholders(Template(PhoneMask)) == 11 {}
  lemma ZipCodeTemplateCapacity() ensures Placeholders(Template(ZipCodeMask)) == 8 {}

  // ---------------------------------------------------------------------
  // The template walk

  /**
   * What one watcher builds from the digits `digits` in the text: the
   * template is walked from the left; a literal is emitted only while the
   * digit count is `growing` (it grew past the previous value), otherwise the
   * position consumes a digit like a placeholder; the walk stops at the first
   * position that needs a digit when none is left.
   */
  function MaskDigits(t: string, digits: string, growing: bool): (r: string)
    ensures |r| <= |t|
  {
    if |t| == 0 then []
    else if t[0] != '#' && growing then [t[0]] + MaskDigits(t[1..], digits, growing)
    else if |digits| == 0 then []
    else [digits[0]] + MaskDigits(t[1..], digits[1..], growing)
  }

  /** One step of the template walk, at template position `k` and digit `i`. */
  lemma MaskStep(t: string, k: nat, digits: string, i: nat, growing: bool)
    requires k < |t| && i <= |digits|
    ensures MaskDigits(t[k..], digits[i..], growing) ==
      if t[k] != '#' && growing then [t[k]] + MaskDigits(t[k + 1..], digits[i..], growing)
      else if i == |digits| then []
      else [digits[i]] + MaskDigits(t[k + 1..], digits[i + 1..], growing)
  {
    assert t[k..][0] == t[k] && t[k..][1..] == t[k + 1..];
    if i < |digits| {
      assert digits[i..][0] == digits[i] && digits[i..][1..] == digits[i + 1..];
    }
  }

  /**
   * When the digit count did not grow, every template position consumes a
   * digit: the field shows the bare leading digits, with no punctuation.
   */
  lemma {:induction false} MaskWhileNotGrowing(t: string, digits: string)
    ensures MaskDigits(t, digits, false) == digits[..Min(|digits|, |t|)]
  {
    if t != [] && digits != [] {
      MaskWhileNotGrowing(t[1..], digits[1..]);
    }
  }

  /**
   * When the digit count grew, the result is a prefix of the template whose
   * literal positions hold the template's literals and whose placeholders
   * hold digits; it stops right before the first placeholder no digit is
   * left for (so literals reached before it are included), or at the end of
   * the template.
   */
  lemma {:induction false} MaskWhileGrowingShape(t: string, digits: string)
    requires AllDigits(digits)
    ensures var r := MaskDigits(t, digits, true);
      (forall j :: 0 <= j < |r| ==> if t[j] == '#' then IsDigit(r[j]) else r[j] == t[j])
      && (|digits| >= Placeholders(t) ==> |r| == |t|)
      && (|digits| < Placeholders(t) ==>
            |r| < |t| && t[|r|] == '#' && Placeholders(t[..|r|]) == |digits|)
  {
    var r := MaskDigits(t, digits, true);
    if t == [] {
    } else if t[0] != '#' {
      PlaceholdersCons(t);
      MaskWhileGrowingShape(t[1..], digits);
      var r' := MaskDigits(t[1..], digits, true);
      assert r == [t[0]] + r';
      if |digits| < Placeholders(t) {
        assert t[..|r|][1..] == t[1..][..|r'|];
        PlaceholdersCons(t[..|r|]);
      }
    } else if digits == [] {
      assert r == [];
      assert t[..0] == [];
    } else {
      PlaceholdersCons(t);
      MaskWhileGrowingShape(t[1..], digits[1..]);
      var r' := MaskDigits(t[1..], digits[1..], true);
      assert r == [digits[0]] + r';
      if |digits| < Placeholders(t) {
        assert t[..|r|][1..] == t[1..][..|r'|];
        PlaceholdersCons(t[..|r|]);
      }
    }
  }

  /**
   * When the digit count grew, the placeholder at position `j` holds the
   * digit whose index is the number of placeholders before `j`: the digits
   * fill the slots in order, none skipped.
   */
  lemma {:induction false} MaskWhileGrowingOrder(t: string, digits: string)
    ensures var r := MaskDigits(t, digits, true);
      forall j :: 0 <= j < |r| && t[j] == '#' ==>
        Placeholders(t[..j]) < |digits| && r[j] == digits[Placeholders(t[..j])]
  {
    var r := MaskDigits(t, digits, true);
    if t == [] {
    } else if t[0] != '#' {
      MaskWhileGrowingOrder(t[1..], digits);
      var r' := MaskDigits(t[1..], digits, true);
      assert r == [t[0]] + r';
      forall j | 0 < j < |r| && t[j] == '#'
        ensures Placeholders(t[..j]) < |digits| && r[j] == digits[Placeholders(t[..j])]
      {
        assert t[..j][1..] == t[1..][..j - 1];
        PlaceholdersCons(t[..j]);
        assert t[1..][j - 1] == t[j] && r[j] == r'[j - 1];
      }
    } else if digits == [] {
      assert r == [];
    } else {
      MaskWhileGrowingOrder(t[1..], digits[1..]);
      var r' := MaskDigits(t[1..], digits[1..], true);
      assert r == [digits[0]] + r';
      assert t[..0] == [];
      forall j | 0 < j < |r| && t[j] == '#'
        ensures Placeholders(t[..j]) < |digits| && r[j] == digits[Placeholders(t[..j])]
      {
        assert t[..j][1..] == t[1..][..j - 1];
        PlaceholdersCons(t[..j]);
        assert t[1..][j - 1] == t[j] && r[j] == r'[j - 1];
      }
    }
  }

  /**
   * When the digit count grew, unmasking the result gives back the leading
   * digits, as many as the template can hold: no digit is lost or invented.
   */
  lemma {:induction false} MaskWhileGrowingDigits(t: string, digits: string)
    requires AllDigits(digits) && LiteralsAreNotDigits(t)
    ensures Unmask(MaskDigits(t, digits, true)) == digits[..Min(|digits|, Placeholders(t))]
  {
    if t == [] {
    } else if t[0] != '#' {
      PlaceholdersCons(t);
      MaskWhileGrowingDigits(t[1..], digits);
      UnmaskAppend([t[0]], MaskDigits(t[1..], digits, true));
    } else if digits != [] {
      PlaceholdersCons(t);
      MaskWhileGrowingDigits(t[1..], digits[1..]);
      UnmaskAppend([digits[0]], MaskDigits(t[1..], digits[1..], true));
    }
  }

  /**
   * Re-feeding a masked value through `unmask` and the mask again changes
   * nothing, for any digit string the template can hold.
   */
  lemma MaskIsStable(t: string, digits: string)
    requires AllDigits(digits) && LiteralsAreNotDigits(t)
    requires |digits| <= Placeholders(t)
    ensures Unmask(MaskDigits(t, digits, true)) == digits
    ensures MaskDigits(t, Unmask(MaskDigits(t, digits, true)), true) == MaskDigits(t, digits, true)
  {
    MaskWhileGrowingDigits(t, digits);
    assert digits[..|digits|] == digits;
  }

  /** "123" typed into an empty CPF field is shown as "123.". */
  lemma CpfPrefixExample()
    ensures MaskDigits(Template(CpfMask), "123", true) == "123."
  {
  }

  /**
   * A full field: once the digits fill every placeholder, the whole template
   * is shown, and the digits beyond its capacity are dropped.
   */
  lemma MaskTruncatesOverflow(kind: MaskKind, digits: string)
    requires AllDigits(digits) && |digits| >= Capacity(kind)
    ensures |MaskDigits(Template(kind), digits, true)| == |Template(kind)|
    ensures Unmask(MaskDigits(Template(kind), digits, true)) == digits[..Capacity(kind)]
  {
    TemplateLiterals(kind);
    TemplateCapacity(kind);
    MaskWhileGrowingDigits(Template(kind), digits);
    MaskWhileGrowingShape(Template(kind), digits);
  }

  /**
   * The `for` loop of `onTextChanged`: walks `mask` once, appending a literal
   * while `growing`, otherwise the next digit, and stops (the caught
   * `charAt` exception) when a digit is needed and none is left.
   */
  method WalkTemplate(mask: string, str: string, growing: bool) returns (mascara: string)
    ensures mascara == MaskDigits(mask, str, growing)
  {
    mascara := "";
    var i, k := 0, 0;
    var stopped := false;
    assert mask[0..] == mask && str[0..] == str;
    while k < |mask| && !stopped
      invariant 0 <= k <= |mask| && 0 <= i <= |str|
      invariant !stopped ==>
        mascara + MaskDigits(mask[k..], str[i..], growing) == MaskDigits(mask, str, growing)
      invariant stopped ==> mascara == MaskDigits(mask, str, growing)
      decreases |mask| - k
    {
      var m := mask[k];
      MaskStep(mask, k, str, i, growing);
      if m != '#' && growing {
        assert (mascara + [m]) + MaskDigits(mask[k + 1..], str[i..], growing)
            == mascara + MaskDigits(mask[k..], str[i..], growing);
        mascara := mascara + [m];
      } else if i < |str| {
        assert (mascara + [str[i]]) + MaskDigits(mask[k + 1..], str[i + 1..], growing)
            == mascara + MaskDigits(mask[k..], str[i..], growing);
        mascara := mascara + [str[i]];
        i := i + 1;
      } else {
        stopped := true;
      }
      k := k + 1;
    }
  }

  // ---------------------------------------------------------------------
  // The text watcher attached to one field

  /**
   * An `EditText` with one of the four mask watchers attached: the field's
   * text and cursor, and the watcher's `isUpdating` flag and `old` value
   * (here `previous`, the digits last written back by the watcher).
   */
  class MaskedField {
    const kind: MaskKind
    const mask: string
    var isUpdating: bool
    var previous: string
    var text: string
    var cursor: nat

    /**
     * Between two edits the echo has been consumed and `previous` holds the
     * digits the field shows.
     */
    ghost predicate Valid()
      reads this
    {
      !isUpdating && previous == Unmask(text) && cursor <= |text|
    }

    /** A field with an empty text and a freshly registered watcher. */
    constructor (kind: MaskKind)
      ensures this.kind == kind && mask == Template(kind) && Valid()
      ensures text == "" && previous == "" && cursor == 0
    {
      this.kind := kind;
      mask := Template(kind);
      isUpdating := false;
      previous := "";
      text := "";
      cursor := 0;
    }

    /**
     * `onTextChanged(s)`. While `isUpdating` is set (the call is the echo of
     * the watcher's own `setText`), it only records the digits and clears the
     * flag. Otherwise it walks the template, writes the result into the field
     * and puts the cursor at its end (the zip-code watcher clamps the cursor
     * to the field length, which is then the same).
     */
    method OnTextChanged(s: string)
      modifies this
      ensures old(isUpdating) ==>
        !isUpdating && previous == Unmask(s) && text == old(text) && cursor == old(cursor)
      ensures !old(isUpdating) ==>
        isUpdating && previous == old(previous) && cursor == |text| &&
        text == MaskDigits(mask, Unmask(s), |Unmask(s)| > |old(previous)|)
    {
      var str := Unmask(s);
      if isUpdating {
        previous := str;
        isUpdating := false;
        return;
      }
      var mascara := WalkTemplate(mask, str, |str| > |previous|);
      isUpdating := true;
      text := mascara;
      cursor := if kind == ZipCodeMask then Min(|mascara|, |text|) else |mascara|;
    }

    /**
     * The field's text becomes `s` (a keystroke or a paste): the watcher
     * runs, rewrites the field, and the rewrite is echoed back to it once.
     */
    method Edit(s: string)
      requires Valid()
      modifies this
      ensures Valid() && cursor == |text|
      ensures text == MaskDigits(mask, Unmask(s), |Unmask(s)| > |old(Unmask(text))|)
    {
      text := s;
      OnTextChanged(s);
      OnTextChanged(text);
    }
  }

  /** Typing one more digit adds exactly that digit to the unmasked value. */
  lemma TypedDigit(text: string, d: char)
    requires IsDigit(d)
    ensures Unmask(text + [d]) == Unmask(text) + [d]
  {
    UnmaskAppend(text, [d]);
  }


  /**
   * Typing `digits` into an empty field one at a time, each rewrite echoed
   * once: the field ends with the grown mask of all the digits.
   */
  method TypeDigits(field: MaskedField, digits: string)
    requires field.Valid() && field.text == ""
    requires AllDigits(digits) && LiteralsAreNotDigits(field.mask)
    requires 0 < |digits| <= Placeholders(field.mask)
    modifies field
    ensures field.Valid() && field.text == MaskDigits(field.mask, digits, true)
  {
    for n := 0 to |digits|
      invariant field.Valid()
      invariant n == 0 ==> field.text == ""
      invariant n > 0 ==> field.text == MaskDigits(field.mask, digits[..n], true)
      invariant Unmask(field.text) == digits[..n]
    {
      TypedDigit(field.text, digits[n]);
      assert digits[..n] + [digits[n]] == digits[..n + 1];
      field.Edit(field.text + [digits[n]]);
      MaskWhileGrowingDigits(field.mask, digits[..n + 1]);
    }
    assert digits[..|digits|] == digits;
  }

  /**
   * Typing the eight digits of a zip code into an empty zip-code field shows
   * what `formatZipCode` makes of them.
   */
  method TypeZipCode(digits: string) returns (shown: string)
    requires |digits| == 8 && AllDigits(digits)
    ensures shown == FormatZipCode(Some(digits))
  {
    var field := new MaskedField(ZipCodeMask);
    TemplateLiterals(ZipCodeMask);
    TemplateCapacity(ZipCodeMask);
    TypeDigits(field, digits);
    ZipMaskMatchesFormat(digits);
    shown := field.text;
  }

  // ---------------------------------------------------------------------
  // formatZipCode

  /**
   * `formatZipCode`: "" for null or empty input; otherwise the digits of the
   * input, as "ddddd-ddd" when there are exactly eight of them.
   */
  function FormatZipCode(zipCode: JString): (r: string)
    ensures IsEmpty(zipCode) ==> r == ""
    ensures !IsEmpty(zipCode) && |Unmask(zipCode.value)| == 8 ==>
      |r| == 9 && r[5] == '-' && r[..5] + r[6..] == Unmask(zipCode.value)
    ensures !IsEmpty(zipCode) && |Unmask(zipCode.value)| != 8 ==> r == Unmask(zipCode.value)
  {
    if zipCode.None? || |zipCode.value| == 0 then ""
    else
      var digits := Unmask(zipCode.value);
      if |digits| == 8 then digits[..5] + "-" + digits[5..] else digits
  }

  /** The digits of a formatted zip code are always the digits of the input. */
  lemma FormatZipCodeKeepsDigits(zipCode: JString)
    ensures Unmask(FormatZipCode(zipCode)) == Unmask(OrEmpty(zipCode))
  {
    if !IsEmpty(zipCode) {
      var digits := Unmask(zipCode.value);
      UnmaskIdempotent(zipCode.value);
      if |digits| == 8 {
        UnmaskAppend(digits[..5], "-");
        UnmaskAppend(digits[..5] + "-", digits[5..]);
        UnmaskAppend(digits[..5], digits[5..]);
        assert digits[..5] + digits[5..] == digits;
      }
    }
  }

  /** Unmasking digits around one separator just removes the separator. */
  lemma UnmaskAroundSeparator(r: string, k: nat)
    requires k < |r| && !IsDigit(r[k]) && AllDigits(r[..k]) && AllDigits(r[k + 1..])
    ensures Unmask(r) == r[..k] + r[k + 1..]
  {
    var before, after := r[..k], r[k + 1..];
    assert r == before + [r[k]] + after;
    assert Unmask([r[k]]) == [];
    UnmaskAppend(before, [r[k]]);
    UnmaskKeepsDigits(before);
    assert Unmask(before + [r[k]]) == before;
    UnmaskAppend(before + [r[k]], after);
    UnmaskKeepsDigits(after);
  }

  /** Eight digits fill the zip-code template: digits around the hyphen. */
  lemma ZipMaskShape(digits: string)
    requires |digits| == 8 && AllDigits(digits)
    ensures var r := MaskDigits(Template(ZipCodeMask), digits, true);
      |r| == 9 && r[5] == '-' && AllDigits(r[..5]) && AllDigits(r[6..]) && Unmask(r) == digits
  {
    var t := Template(ZipCodeMask);
    TemplateLiterals(ZipCodeMask);
    TemplateCapacity(ZipCodeMask);
    MaskWhileGrowingShape(t, digits);
    MaskWhileGrowingDigits(t, digits);
    assert digits[..8] == digits;
  }

  /**
   * The zip-code watcher and `formatZipCode` agree on a complete zip code:
   * both give "ddddd-ddd".
   */
  lemma ZipMaskMatchesFormat(digits: string)
    requires |digits| == 8 && AllDigits(digits)
    ensures MaskDigits(Template(ZipCodeMask), digits, true) == FormatZipCode(Some(digits))
  {
    var r := MaskDigits(Template(ZipCodeMask), digits, true);
    ZipMaskShape(digits);
    UnmaskAroundSeparator(r, 5);
    UnmaskKeepsDigits(digits);
    assert r[..5] == digits[..5] && r[6..] == digits[5..];
    assert r == r[..5] + "-" + r[6..];
  }
}
