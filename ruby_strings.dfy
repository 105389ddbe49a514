/** The few Ruby string operations the datatable relies on: `String#to_i`,
    `Integer#to_s`, `String#split` on a one-character separator, `Array#join`,
    `present?` and interpolation of a possibly-nil value. */
module RubyStrings {
  import opened Results

  predicate IsDigit(c: char) {
    '0' <= c <= '9'
  }

  predicate AllDigits(s: string) {
    forall i :: 0 <= i < |s| ==> IsDigit(s[i])
  }

  function DigitValue(c: char): (d: nat)
    requires IsDigit(c)
    ensures d < 10
  {
    (c as int) - ('0' as int)
  }

  function DigitChar(d: nat): (c: char)
    requires d < 10
    ensures IsDigit(c) && DigitValue(c) == d
  {
    (('0' as int) + d) as char
  }

  /** `Integer#to_s` for a non-negative integer: decimal, no leading zero. */
  function NatToString(n: nat): (s: string)
    ensures |s| >= 1 && AllDigits(s)
    ensures |s| > 1 ==> s[0] != '0'
  {
    if n < 10 then [DigitChar(n)] else NatToString(n / 10) + [DigitChar(n % 10)]
  }

  /** The number a string of decimal digits denotes, read most significant digit first. */
  function DigitsValue(s: string): nat
    requires AllDigits(s)
  {
    if s == [] then 0 else DigitsValue(s[..|s| - 1]) * 10 + DigitValue(s[|s| - 1])
  }

  /** The ASCII whitespace `String#to_i` skips before the number. */
  predicate IsSpace(c: char) {
    c == ' ' || c == '\t' || c == '\n' || c == '\U{0B}' || c == '\U{0C}' || c == '\r'
  }

  function SkipSpaces(s: string): (t: string)
    ensures |t| <= |s| && t == s[|s| - |t|..]
    ensures t == [] || !IsSpace(t[0])
  {
    if s != [] && IsSpace(s[0]) then SkipSpaces(s[1..]) else s
  }

  /** Scans a run of digits onto `acc`, reading one `_` between two digits as Ruby does. */
  function DigitRun(s: string, acc: nat): nat
  {
    if s == [] then acc
    else if IsDigit(s[0]) then DigitRun(s[1..], acc * 10 + DigitValue(s[0]))
    else if s[0] == '_' && |s| > 1 && IsDigit(s[1]) then DigitRun(s[1..], acc)
    else acc
  }

  /** The value of the digits at the head of `s`, 0 when `s` does not start with a digit. */
  function LeadingNumber(s: string): nat {
    if s != [] && IsDigit(s[0]) then DigitRun(s, 0) else 0
  }

  /** `String#to_i`: leading whitespace, an optional sign, then as many digits as there are;
      anything else gives 0. */
  function StringToI(s: string): int {
    var t := SkipSpaces(s);
    if t != [] && t[0] == '-' then -(LeadingNumber(t[1..]) as int)
    else if t != [] && t[0] == '+' then LeadingNumber(t[1..])
    else LeadingNumber(t)
  }

  /** `to_i` on a request parameter, which is a string or nil (`nil.to_i == 0`). */
  function ToI(v: Option<string>): int {
    match v
    case None => 0
    case Some(s) => StringToI(s)
  }

  /** Leading whitespace is skipped up to the first other character. */
  lemma {:induction false} SkipLeadingSpaces(ws: string, rest: string)
    requires forall k :: 0 <= k < |ws| ==> IsSpace(ws[k])
    requires rest == [] || !IsSpace(rest[0])
    ensures SkipSpaces(ws + rest) == rest
  {
    if ws != [] {
      assert (ws + rest)[1..] == ws[1..] + rest;
      SkipLeadingSpaces(ws[1..], rest);
    } else {
      assert ws + rest == rest;
    }
  }

  /** Garbage reads as 0: after any leading whitespace, anything but a digit or a sign
      (the empty rest included) gives 0. */
  lemma StringToIOfGarbage(ws: string, rest: string)
    requires forall k :: 0 <= k < |ws| ==> IsSpace(ws[k])
    requires rest == [] || !(IsSpace(rest[0]) || IsDigit(rest[0]) || rest[0] == '-' || rest[0] == '+')
    ensures StringToI(ws + rest) == 0
  {
    SkipLeadingSpaces(ws, rest);
  }

  /** `nil.to_i` is 0, and a numeral parameter reads as its value. */
  lemma ToIOfParameter(v: Option<string>)
    ensures v.None? ==> ToI(v) == 0
    ensures v.Some? && v.value != [] && AllDigits(v.value) ==> ToI(v) == DigitsValue(v.value)
  {
    if v.Some? && v.value != [] && AllDigits(v.value) {
      StringToIOfDigits(v.value);
    }
  }

  lemma {:induction false} DigitRunSnoc(s: string, c: char, acc: nat)
    requires AllDigits(s) && IsDigit(c)
    ensures DigitRun(s + [c], acc) == DigitRun(s, acc) * 10 + DigitValue(c)
  {
    if s == [] {
      assert DigitRun([c], acc) == DigitRun([], acc * 10 + DigitValue(c));
    } else {
      assert (s + [c])[1..] == s[1..] + [c];
      DigitRunSnoc(s[1..], c, acc * 10 + DigitValue(s[0]));
    }
  }

  lemma {:induction false} DigitRunOfDigits(s: string)
    requires AllDigits(s)
    ensures DigitRun(s, 0) == DigitsValue(s)
  {
    if s != [] {
      var p := s[..|s| - 1];
      assert s == p + [s[|s| - 1]];
      DigitRunOfDigits(p);
      DigitRunSnoc(p, s[|s| - 1], 0);
    }
  }

  lemma {:induction false} DigitsValueOfNatToString(n: nat)
    ensures DigitsValue(NatToString(n)) == n
  {
    if n >= 10 {
      var s := NatToString(n);
      assert s[..|s| - 1] == NatToString(n / 10);
      DigitsValueOfNatToString(n / 10);
    }
  }

  lemma StringToIOfDigits(s: string)
    requires s != [] && AllDigits(s)
    ensures StringToI(s) == DigitsValue(s)
    ensures StringToI("-" + s) == -(DigitsValue(s) as int)
  {
    DigitRunOfDigits(s);
    assert !IsSpace(s[0]);
    assert SkipSpaces(s) == s;
    var m := "-" + s;
    assert !IsSpace(m[0]);
    assert SkipSpaces(m) == m;
    assert m[1..] == s;
  }

  /** `n.to_s.to_i == n`: the ordinal keys the datatable builds read back as their number. */
  lemma ToIOfNatToString(n: nat)
    ensures StringToI(NatToString(n)) == n
    ensures StringToI("-" + NatToString(n)) == -(n as int)
  {
    DigitsValueOfNatToString(n);
    StringToIOfDigits(NatToString(n));
  }

  /** A single digit prints as itself and reads back, with or without a minus sign. */
  lemma SingleDigit(n: nat)
    requires n < 10
    ensures NatToString(n) == [DigitChar(n)]
    ensures StringToI([DigitChar(n)]) == n && StringToI("-" + [DigitChar(n)]) == -(n as int)
  {
    ToIOfNatToString(n);
  }

  lemma NumeralZero()
    ensures NatToString(0) == "0" && StringToI("0") == 0
  {
    SingleDigit(0);
  }

  lemma NumeralOne()
    ensures NatToString(1) == "1" && StringToI("1") == 1
  {
    SingleDigit(1);
  }

  lemma NumeralMinusOne()
    ensures StringToI("-1") == -1
  {
    SingleDigit(1);
    assert "-" + [DigitChar(1)] == "-1";
  }

  lemma NumeralTwo()
    ensures NatToString(2) == "2" && StringToI("2") == 2
  {
    SingleDigit(2);
  }

  /** Index of the first `c` in `s`, or `|s|` when there is none. */
  function IndexOf(s: string, c: char): (i: nat)
    ensures i <= |s|
    ensures i < |s| ==> s[i] == c
    ensures forall j :: 0 <= j < i ==> s[j] != c
  {
    if s == [] then 0 else if s[0] == c then 0 else 1 + IndexOf(s[1..], c)
  }

  /** Every field between separators, empty ones included. */
  function SplitAll(s: string, c: char): (parts: seq<string>)
    ensures |parts| >= 1
    decreases |s|
  {
    var i := IndexOf(s, c);
    if i == |s| then [s] else [s[..i]] + SplitAll(s[i + 1..], c)
  }

  function DropTrailingEmpty(parts: seq<string>): (r: seq<string>)
    ensures |r| <= |parts| && r == parts[..|r|]
    ensures r == [] || r[|r| - 1] != ""
    ensures forall j :: |r| <= j < |parts| ==> parts[j] == ""
  {
    if parts != [] && parts[|parts| - 1] == "" then DropTrailingEmpty(parts[..|parts| - 1]) else parts
  }

  /** `String#split(c)` for a one-character separator other than a space: the fields
      between separators, with trailing empty fields removed (so `"".split(".") == []`). */
  function Split(s: string, c: char): seq<string> {
    DropTrailingEmpty(SplitAll(s, c))
  }

  lemma {:induction false} SplitAllEmptyFields(s: string, c: char)
    ensures (forall j :: 0 <= j < |SplitAll(s, c)| ==> SplitAll(s, c)[j] == "")
        <==> (forall k :: 0 <= k < |s| ==> s[k] == c)
    decreases |s|
  {
    var i := IndexOf(s, c);
    if i < |s| {
      var rest := s[i + 1..];
      SplitAllEmptyFields(rest, c);
      var parts := SplitAll(s, c);
      assert parts == [s[..i]] + SplitAll(rest, c);
      if forall k :: 0 <= k < |s| ==> s[k] == c {
        assert i == 0;
        forall j | 0 <= j < |parts| ensures parts[j] == "" {
          if j > 0 {
            assert parts[j] == SplitAll(rest, c)[j - 1];
            assert forall k :: 0 <= k < |rest| ==> rest[k] == s[k + i + 1];
          }
        }
      }
      if forall j :: 0 <= j < |parts| ==> parts[j] == "" {
        assert parts[0] == "";
        assert i == 0;
        forall j | 0 <= j < |SplitAll(rest, c)| ensures SplitAll(rest, c)[j] == "" {
          assert SplitAll(rest, c)[j] == parts[j + 1];
        }
        forall k | 0 <= k < |s| ensures s[k] == c {
          if k > 0 { assert s[k] == rest[k - 1]; }
        }
      }
    } else {
      assert SplitAll(s, c) == [s];
      if s != [] {
        assert s[0] != c;
        assert SplitAll(s, c)[0] != "";
      }
    }
  }

  /** `s.split(c)` is empty exactly when `s` holds nothing but separators (the empty string included). */
  lemma SplitEmptyIff(s: string, c: char)
    ensures Split(s, c) == [] <==> forall k :: 0 <= k < |s| ==> s[k] == c
  {
    SplitAllEmptyFields(s, c);
    var parts := SplitAll(s, c);
    var r := Split(s, c);
    if r == [] {
      assert forall j :: 0 <= j < |parts| ==> parts[j] == "";
    } else {
      assert r[|r| - 1] == parts[|r| - 1] != "";
    }
    if forall j :: 0 <= j < |parts| ==> parts[j] == "" {
      if r != [] {
        assert r[|r| - 1] == parts[|r| - 1];
      }
    }
  }

  /** When there is a first field, it is the text before the first separator. */
  lemma SplitFirstField(s: string, c: char)
    requires Split(s, c) != []
    ensures Split(s, c)[0] == s[..IndexOf(s, c)]
  {
    var parts := SplitAll(s, c);
    assert Split(s, c)[0] == parts[0];
  }

  /** A non-empty string without the separator is its own single field. */
  lemma SplitWithoutSeparator(s: string, c: char)
    requires s != [] && forall k :: 0 <= k < |s| ==> s[k] != c
    ensures Split(s, c) == [s]
  {
    assert IndexOf(s, c) == |s|;
    assert SplitAll(s, c) == [s];
  }

  /** `"assoc.attr".split(".") == ["assoc", "attr"]` for separator-free parts, the second non-empty. */
  lemma SplitQualified(a: string, b: string, c: char)
    requires forall k :: 0 <= k < |a| ==> a[k] != c
    requires b != [] && forall k :: 0 <= k < |b| ==> b[k] != c
    ensures Split(a + [c] + b, c) == [a, b]
  {
    var s := a + [c] + b;
    assert s[|a|] == c;
    assert forall j :: 0 <= j < |a| ==> s[j] == a[j];
    assert IndexOf(s, c) == |a|;
    assert s[..|a|] == a;
    assert s[|a| + 1..] == b;
    SplitWithoutSeparator(b, c);
    assert SplitAll(b, c) == [b];
    assert SplitAll(s, c) == [a, b];
  }

  /** `Array#join(sep)`. */
  function JoinWith(parts: seq<string>, sep: string): string {
    if |parts| == 0 then ""
    else if |parts| == 1 then parts[0]
    else parts[0] + sep + JoinWith(parts[1..], sep)
  }

  /** Joining one more part appends the separator and that part: the parts stay in order. */
  lemma {:induction false} JoinWithSnoc(parts: seq<string>, last: string, sep: string)
    requires parts != []
    ensures JoinWith(parts + [last], sep) == JoinWith(parts, sep) + sep + last
  {
    if |parts| > 1 {
      assert (parts + [last])[1..] == parts[1..] + [last];
      JoinWithSnoc(parts[1..], last, sep);
    }
  }

  /** A character of the POSIX class `[[:space:]]` on a Unicode string, which is what
      ActiveSupport's `String#blank?` matches: the Unicode White_Space characters. */
  predicate IsBlankChar(c: char) {
    ('\t' <= c <= '\r') || c == ' ' || c == '\U{0085}' || c == '\U{00A0}' || c == '\U{1680}' ||
    ('\U{2000}' <= c <= '\U{200A}') || c == '\U{2028}' || c == '\U{2029}' || c == '\U{202F}' ||
    c == '\U{205F}' || c == '\U{3000}'
  }

  /** `String#blank?`: the whole string matches `/\A[[:space:]]*\z/`, read one character at a time. */
  predicate Blank(s: string) {
    s == [] || (IsBlankChar(s[0]) && Blank(s[1..]))
  }

  /** `present?` on a request parameter: not nil and holding some non-blank character. */
  predicate Present(v: Option<string>) {
    v.Some? && exists k :: 0 <= k < |v.value| && !IsBlankChar(v.value[k])
  }

  lemma {:induction false} BlankIffAllBlankChars(s: string)
    ensures Blank(s) <==> forall k :: 0 <= k < |s| ==> IsBlankChar(s[k])
  {
    if s != [] {
      BlankIffAllBlankChars(s[1..]);
      assert forall k :: 1 <= k < |s| ==> s[k] == s[1..][k - 1];
    }
  }

  /** `present?` is `!nil? && !blank?`: a missing parameter and a string of Unicode
      whitespace only (the empty string included) are not present. */
  lemma PresentIff(v: Option<string>)
    ensures Present(v) <==> v.Some? && !Blank(v.value)
  {
    if v.Some? {
      BlankIffAllBlankChars(v.value);
    }
  }

  /** String interpolation of a possibly-nil value: `"#{nil}" == ""`. */
  function Interp(v: Option<string>): (s: string)
    ensures v.Some? ==> s == v.value
    ensures v.None? ==> s == ""
  {
    match v
    case None => ""
    case Some(x) => x
  }

  predicate HasPrefix(s: string, prefix: string) {
    |prefix| <= |s| && s[..|prefix|] == prefix
  }
}
