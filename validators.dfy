/**
 * The field validators of the browser app (frontend/src/utils/validators.js).
 * A number is a real value here; the coercions of `parseFloat` and `Number`
 * applied to strings are not part of this model.
 */
module Validators {
  import opened Wrappers
  import opened Text
  import OrderPages

  /** A form value as the validators receive it. */
  datatype Value = Undefined | Null | Str(s: string) | Number(n: real) | Bool(b: bool)

  /** `isRequired`. */
  predicate IsRequired(v: Value) {
    v != Undefined && v != Null && v != Str("")
  }

  /** Only undefined, null and the empty string are missing; 0 and false count as given. */
  lemma IsRequiredExactly(v: Value)
    ensures !IsRequired(v) <==> v.Undefined? || v.Null? || (v.Str? && v.s == "")
    ensures IsRequired(Number(0.0)) && IsRequired(Bool(false))
  {
  }

  /**
   * A string's `.length`: the number of its UTF-16 code units, two for each
   * character outside the Basic Multilingual Plane.
   */
  function Utf16Length(s: string): nat {
    if s == [] then 0 else (if s[0] > '\U{FFFF}' then 2 else 1) + Utf16Length(s[1..])
  }

  /**
   * `.length` is at least the number of characters and at most twice it, and
   * equals it exactly when no character lies outside the Basic Multilingual Plane.
   */
  lemma {:induction false} Utf16LengthBounds(s: string)
    ensures |s| <= Utf16Length(s) <= 2 * |s|
    ensures Utf16Length(s) == |s| <==> forall k :: 0 <= k < |s| ==> s[k] <= '\U{FFFF}'
    ensures Utf16Length(s) == 0 <==> s == []
    decreases |s|
  {
    if s != [] {
      Utf16LengthBounds(s[1..]);
      assert forall k :: 1 <= k < |s| ==> s[k] == s[1..][k - 1];
    }
  }

  /** `minLength(value, min)` on a string or missing value; the empty string is falsy and fails. */
  predicate MinLength(value: Option<string>, min: int) {
    value.Some? && value.value != "" && Utf16Length(value.value) >= min
  }

  /** `maxLength(value, max)`: a missing or empty value always passes. */
  predicate MaxLength(value: Option<string>, max: int) {
    value.None? || value.value == "" || Utf16Length(value.value) <= max
  }

  /** `isPassword`. */
  predicate IsPassword(password: Option<string>) {
    password.Some? && password.value != "" && Utf16Length(password.value) >= 6
  }

  /**
   * minLength holds exactly for a given, non-empty value at least `min` code
   * units long (so never for the empty string, even with `min` 0); maxLength
   * fails exactly for a non-empty value longer than `max`; isPassword is
   * minLength 6.
   */
  lemma LengthRules(value: Option<string>, min: int, max: int)
    ensures MinLength(value, min) <==> value.Some? && Utf16Length(value.value) >= min && |value.value| > 0
    ensures !MaxLength(value, max) <==> value.Some? && |value.value| > 0 && Utf16Length(value.value) > max
    ensures IsPassword(value) <==> MinLength(value, 6)
    ensures IsPassword(value) <==> value.Some? && Utf16Length(value.value) >= 6
  {
    if value.Some? {
      Utf16LengthBounds(value.value);
    }
  }

  /** Three emoji are six code units: a password to the browser, though only three characters. */
  lemma ThreeEmojiPassword()
    ensures IsPassword(Some("\U{1F600}\U{1F600}\U{1F600}"))
    ensures |"\U{1F600}\U{1F600}\U{1F600}"| == 3
  {
    var s := "\U{1F600}\U{1F600}\U{1F600}";
    assert Utf16Length(s[2..]) == 2;
    assert Utf16Length(s[1..]) == 4;
  }

  /** The characters `\s` matches in a JavaScript regular expression. */
  predicate IsJsSpace(c: char) {
    c == '\t' || c == '\n' || c == '\U{000B}' || c == '\U{000C}' || c == '\r' || c == ' ' ||
    c == '\U{00A0}' || c == '\U{1680}' || ('\U{2000}' <= c <= '\U{200A}') || c == '\U{2028}' || c == '\U{2029}' ||
    c == '\U{202F}' || c == '\U{205F}' || c == '\U{3000}' || c == '\U{FEFF}'
  }

  /** The class `[^\s@]`. */
  predicate Plain(c: char) {
    !IsJsSpace(c) && c != '@'
  }

  predicate AllPlain(s: string) {
    forall k :: 0 <= k < |s| ==> Plain(s[k])
  }

  /** A dot with at least one character before it and one after it. */
  predicate HasInnerDot(s: string) {
    exists k :: 1 <= k < |s| - 1 && s[k] == '.'
  }

  /** `isEmail`, read as a scan: split at the first '@', then check the local part and the domain. */
  predicate IsEmail(s: string) {
    '@' in s &&
    var i := IndexOf(s, '@');
    i > 0 && AllPlain(s[..i]) && AllPlain(s[i + 1..]) && HasInnerDot(s[i + 1..])
  }

  /**
   * What `/^[^\s@]+@[^\s@]+\.[^\s@]+$/` matches: the text is a + "@" + b + "." + c
   * with a, b and c non-empty runs of `[^\s@]`.
   */
  ghost predicate MatchesEmailPattern(s: string) {
    exists i, j :: 0 < i && i + 1 < j && j + 1 < |s| && s[i] == '@' && s[j] == '.' &&
                   AllPlain(s[..i]) && AllPlain(s[i + 1..j]) && AllPlain(s[j + 1..])
  }

  /** The first '@' is the one with none before it. */
  lemma FirstAt(s: string, i: nat)
    requires i < |s| && s[i] == '@' && '@' !in s[..i]
    ensures '@' in s && IndexOf(s, '@') == i
  {
    var r := IndexOf(s, '@');
    assert forall k :: 0 <= k < i ==> s[..i][k] == s[k];
    assert forall k :: 0 <= k < r ==> s[..r][k] == s[k];
  }

  lemma EmailScanMatches(s: string)
    requires IsEmail(s)
    ensures MatchesEmailPattern(s)
  {
    var i := IndexOf(s, '@');
    var d := s[i + 1..];
    var k :| 1 <= k < |d| - 1 && d[k] == '.';
    var j := i + 1 + k;
    assert s[i + 1..j] == d[..k];
    assert s[j + 1..] == d[k + 1..];
    assert s[j] == '.';
  }

  lemma PlainAroundDot(b: string, c: string)
    requires AllPlain(b) && AllPlain(c) && |b| > 0 && |c| > 0
    ensures AllPlain(b + "." + c) && HasInnerDot(b + "." + c)
  {
    var d := b + "." + c;
    assert d[|b|] == '.';
    assert forall k :: 0 <= k < |b| ==> d[k] == b[k];
    assert forall k :: |b| < k < |d| ==> d[k] == c[k - |b| - 1];
  }

  /** A run of `[^\s@]` holds no '@'. */
  lemma PlainHasNoAt(t: string)
    requires AllPlain(t)
    ensures '@' !in t
  {
    forall k | 0 <= k < |t|
      ensures t[k] != '@'
    {
      assert Plain(t[k]);
    }
  }

  /** The scan accepts a text whose first '@' has a plain local part before it and a plain dotted domain after it. */
  lemma ScanAccepts(s: string, i: nat)
    requires 0 < i < |s| && s[i] == '@' && '@' !in s[..i]
    requires AllPlain(s[..i]) && AllPlain(s[i + 1..]) && HasInnerDot(s[i + 1..])
    ensures IsEmail(s)
  {
    FirstAt(s, i);
  }

  /** A match at '@' position i and dot position j is accepted by the scan. */
  lemma MatchAtScans(s: string, i: nat, j: nat)
    requires 0 < i && i + 1 < j && j + 1 < |s| && s[i] == '@' && s[j] == '.'
    requires AllPlain(s[..i]) && AllPlain(s[i + 1..j]) && AllPlain(s[j + 1..])
    ensures IsEmail(s)
  {
    PlainHasNoAt(s[..i]);
    var b, c := s[i + 1..j], s[j + 1..];
    assert s[i + 1..] == b + "." + c by {
      assert s[i + 1..] == s[i + 1..j] + [s[j]] + s[j + 1..];
    }
    PlainAroundDot(b, c);
    ScanAccepts(s, i);
  }

  lemma EmailPatternScans(s: string)
    requires MatchesEmailPattern(s)
    ensures IsEmail(s)
  {
    var i, j :| 0 < i && i + 1 < j && j + 1 < |s| && s[i] == '@' && s[j] == '.' &&
                AllPlain(s[..i]) && AllPlain(s[i + 1..j]) && AllPlain(s[j + 1..]);
    MatchAtScans(s, i, j);
  }

  /** The scan accepts exactly the texts the regular expression matches. */
  lemma IsEmailMatchesPattern(s: string)
    ensures IsEmail(s) <==> MatchesEmailPattern(s)
  {
    if IsEmail(s) {
      EmailScanMatches(s);
    }
    if MatchesEmailPattern(s) {
      EmailPatternScans(s);
    }
  }

  /** Exactly one '@' in an accepted address. */
  lemma EmailHasOneAt(s: string)
    requires IsEmail(s)
    ensures forall k :: 0 <= k < |s| && s[k] == '@' ==> k == IndexOf(s, '@')
  {
    var i := IndexOf(s, '@');
    var domain := s[i + 1..];
    assert forall k :: i < k < |s| ==> s[k] == domain[k - i - 1];
  }

  predicate IsInteger(v: real) {
    v == v.Floor as real
  }

  /** `isPositiveInteger` on a number. */
  predicate IsPositiveInteger(v: real) {
    IsInteger(v) && v > 0.0
  }

  /**
   * `isNumber`: `parseFloat` of undefined, null or a boolean is NaN, so only a
   * number passes (a number here is always finite). A string is read as no
   * numeral at all.
   */
  predicate IsNumber(v: Value) {
    v.Number?
  }

  /** `isInRange`. */
  predicate IsInRange(v: Value, min: real, max: real) {
    IsNumber(v) && v.n >= min && v.n <= max
  }

  /**
   * Only numbers can be in range; the range is closed at both ends and empty
   * when `min` exceeds `max`.
   */
  lemma IsInRangeInclusive(v: Value, min: real, max: real)
    ensures IsInRange(v, min, max) <==> v.Number? && min <= v.n <= max
    ensures v.Undefined? || v.Null? || v.Bool? ==> !IsInRange(v, min, max)
    ensures min <= max ==> IsInRange(Number(min), min, max) && IsInRange(Number(max), min, max)
    ensures min > max ==> !IsInRange(v, min, max)
  {
  }

  /**
   * A positive integer is a whole number of at least one; this is also the
   * check the work-order completion form applies to a given quantity.
   */
  lemma PositiveIntegerRule(v: real, planned: int)
    ensures IsPositiveInteger(v) <==> IsInteger(v) && v >= 1.0
    ensures IsPositiveInteger(v) <==> OrderPages.NotPositiveInteger !in OrderPages.CompletionErrors(Some(v), planned)
  {
  }
}
