/**
 * The few pieces of Java/Android string behaviour the app relies on:
 * nullable strings, `TextUtils.isEmpty`, the `[0-9]` character class and
 * `Character.isUpperCase`/`toUpperCase` (restricted to ASCII letters).
 */
module JavaText {
  import opened Wrappers

  /** A Java `String` reference; `None` is `null`. */
  type JString = Option<string>

  /** `TextUtils.isEmpty`: null or of length zero. */
  predicate IsEmpty(s: JString) {
    s.None? || |s.value| == 0
  }

  /** `s != null ? s : ""`, the idiom the adapters and the view model use. */
  function OrEmpty(s: JString): string {
    s.GetOr("")
  }

  /** Membership in the regular-expression class `[0-9]`. */
  predicate IsDigit(c: char) {
    '0' <= c <= '9'
  }

  predicate AllDigits(s: string) {
    forall i :: 0 <= i < |s| ==> IsDigit(s[i])
  }

  /** Java's `c - '0'`: a digit's value for a digit, some other number otherwise. */
  function DigitValue(c: char): int {
    c as int - '0' as int
  }

  lemma DigitValueInjective(a: char, b: char)
    requires DigitValue(a) == DigitValue(b)
    ensures a == b
  {
  }

  predicate IsUpperCase(c: char) {
    'A' <= c <= 'Z'
  }

  function ToUpperCase(c: char): (u: char)
    ensures IsUpperCase(c) ==> u == c
    ensures 'a' <= c <= 'z' ==> IsUpperCase(u) && u as int - 'A' as int == c as int - 'a' as int
    ensures !('a' <= c <= 'z') ==> u == c
  {
    if 'a' <= c <= 'z' then (c as int - 32) as char else c
  }
}
