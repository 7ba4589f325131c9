/**
 * Character classes, `str.strip()`, substring tests, the regular-expression
 * searches the serial reader performs, and decimal conversion (`int(...)`,
 * `str(n)`, `f"{n:03d}"`), all over `seq<char>`.
 *
 * Python's `\s`, `\d` and `\w` (and the whitespace `str.strip()` removes) are
 * Unicode-aware; this model restricts all three to ASCII code points.
 */
module Text {
  import opened Wrappers

  // ---------------------------------------------------------------------
  // Character classes (ASCII only)
  // ---------------------------------------------------------------------

  /** ASCII whitespace as Python sees it: space, \t \n \v \f \r and \x1c..\x1f. */
  predicate IsSpace(c: char) {
    c == ' ' || (9 <= c as int <= 13) || (28 <= c as int <= 31)
  }

  /** `\d` restricted to ASCII. */
  predicate IsDigit(c: char) {
    '0' <= c <= '9'
  }

  /** `\w` restricted to ASCII: letters, digits and underscore. */
  predicate IsWordChar(c: char) {
    ('a' <= c <= 'z') || ('A' <= c <= 'Z') || IsDigit(c) || c == '_'
  }

  datatype CharClass = Digit | Word

  predicate InClass(c: char, cls: CharClass) {
    match cls
    case Digit => IsDigit(c)
    case Word => IsWordChar(c)
  }

  predicate AllSpace(s: string) {
    forall k :: 0 <= k < |s| ==> IsSpace(s[k])
  }

  predicate AllDigits(s: string) {
    forall k :: 0 <= k < |s| ==> IsDigit(s[k])
  }

  // ---------------------------------------------------------------------
  // str.strip()
  // ---------------------------------------------------------------------

  /** Drops leading whitespace; what remains is a suffix that starts with a non-space. */
  function TrimStart(s: string): (r: string)
    ensures |r| <= |s| && r == s[|s| - |r|..]
    ensures AllSpace(s[..|s| - |r|])
    ensures r == [] || !IsSpace(r[0])
  {
    if s != [] && IsSpace(s[0]) then
      var t := s[1..];
      var r := TrimStart(t);
      assert r == s[|s| - |r|..];
      assert AllSpace(s[..|s| - |r|]) by {
        forall k | 0 <= k < |s| - |r| ensures IsSpace(s[k]) {
          if k > 0 { assert s[k] == t[..|t| - |r|][k - 1]; }
        }
      }
      r
    else s
  }

  /** Drops trailing whitespace; what remains is a prefix that ends with a non-space. */
  function TrimEnd(s: string): (r: string)
    ensures |r| <= |s| && r == s[..|r|]
    ensures AllSpace(s[|r|..])
    ensures r == [] || !IsSpace(r[|r| - 1])
  {
    if s != [] && IsSpace(s[|s| - 1]) then
      var p := s[..|s| - 1];
      var r := TrimEnd(p);
      assert r == s[..|r|] && s[|r|..] == p[|r|..] + [s[|s| - 1]];
      r
    else s
  }

  /** `str.strip()`, on ASCII whitespace: surrounding whitespace dropped; the result is no longer than the
      input and neither starts nor ends with whitespace. */
  function Strip(s: string): (r: string)
    ensures |r| <= |s|
    ensures r == [] || (!IsSpace(r[0]) && !IsSpace(r[|r| - 1]))
  {
    TrimEnd(TrimStart(s))
  }

  /** r is s[i..j] and everything outside it is whitespace. */
  predicate TrimmedSlice(s: string, r: string, i: nat, j: nat) {
    i <= j <= |s| && r == s[i..j] && AllSpace(s[..i]) && AllSpace(s[j..])
  }

  lemma SliceOfSuffix(s: string, t: string, r: string, i: nat)
    requires i <= |s| && t == s[i..] && |r| <= |t| && r == t[..|r|]
    requires AllSpace(s[..i]) && AllSpace(t[|r|..])
    ensures TrimmedSlice(s, r, i, i + |r|)
  {
    assert s[i + |r|..] == t[|r|..];
  }

  /** The stripped line is the slice of the input between two all-whitespace margins. */
  lemma StripIsTrimmedSlice(s: string)
    ensures exists i, j :: TrimmedSlice(s, Strip(s), i, j)
  {
    var t := TrimStart(s);
    var r := TrimEnd(t);
    var i: nat := |s| - |t|;
    SliceOfSuffix(s, t, r, i);
    assert TrimmedSlice(s, Strip(s), i, i + |r|);
  }

  /** Stripping a line that is empty or all whitespace gives the empty line, and only then. */
  lemma StripEmptyIff(s: string)
    ensures Strip(s) == [] <==> AllSpace(s)
  {
    var t := TrimStart(s);
    var i := |s| - |t|;
    if Strip(s) == [] {
      assert t[|TrimEnd(t)|..] == t;
      assert s[..i] == s;
    }
  }

  /** Stripping twice is stripping once. */
  lemma StripIdempotent(s: string)
    ensures Strip(Strip(s)) == Strip(s)
  {
    var r := Strip(s);
    StripIsTrimmedSlice(s);
    assert TrimStart(r) == r;
  }

  // ---------------------------------------------------------------------
  // Substrings
  // ---------------------------------------------------------------------

  predicate StartsWith(s: string, prefix: string) {
    |prefix| <= |s| && s[..|prefix|] == prefix
  }

  predicate OccursAt(s: string, sub: string, i: int) {
    0 <= i && i + |sub| <= |s| && s[i..i + |sub|] == sub
  }

  /** Python's `sub in s`, scanning from the left. */
  predicate Contains(s: string, sub: string)
    ensures Contains(s, sub) ==> |sub| <= |s|
    decreases |s|
  {
    StartsWith(s, sub) || (s != [] && Contains(s[1..], sub))
  }

  /** The scan agrees with the positional definition of a substring. */
  lemma {:induction false} ContainsIff(s: string, sub: string)
    ensures Contains(s, sub) <==> exists i :: OccursAt(s, sub, i)
    decreases |s|
  {
    if StartsWith(s, sub) {
      assert OccursAt(s, sub, 0);
    } else if s == [] {
    } else {
      var t := s[1..];
      assert Contains(s, sub) == Contains(t, sub);
      ContainsIff(t, sub);
      if Contains(t, sub) {
        var i :| OccursAt(t, sub, i);
        assert t[i..i + |sub|] == s[i + 1..i + 1 + |sub|];
        assert OccursAt(s, sub, i + 1);
      } else {
        assert !OccursAt(s, sub, 0);
        forall i | OccursAt(s, sub, i) && i > 0 ensures OccursAt(t, sub, i - 1) {
          assert t[i - 1..i - 1 + |sub|] == s[i..i + |sub|];
        }
      }
    }
  }

  // ---------------------------------------------------------------------
  // The searches `re.search(MARKER + r'\s*(\d+)', s)` and `... r'\s*(\w+)'`
  // ---------------------------------------------------------------------

  /** The literal part of a search pattern, as the spellings it accepts, all of
      one width (`Total [Dd]evices:` accepts "Total devices:" and "Total Devices:"). */
  type Marker = seq<string>

  function Width(m: Marker): nat {
    if m == [] then 0 else |m[0]|
  }

  predicate MarkerAt(s: string, m: Marker, i: nat) {
    i + Width(m) <= |s| && s[i..i + Width(m)] in m
  }

  /** A marker found at i is one of its spellings occurring in s, so the
      plain substring test for that spelling succeeds. */
  lemma MarkerAtContains(s: string, m: Marker, i: nat)
    requires MarkerAt(s, m, i)
    ensures s[i..i + Width(m)] in m && Contains(s, s[i..i + Width(m)])
  {
    ContainsIff(s, s[i..i + Width(m)]);
    assert OccursAt(s, s[i..i + Width(m)], i);
  }

  /** The first position at or after i that is not whitespace. */
  function SkipSpace(s: string, i: nat): (j: nat)
    requires i <= |s|
    ensures i <= j <= |s|
    ensures AllSpace(s[i..j])
    ensures j == |s| || !IsSpace(s[j])
    decreases |s| - i
  {
    if i < |s| && IsSpace(s[i]) then SkipSpace(s, i + 1) else i
  }

  /** The end of the maximal run of class characters starting at i. */
  function RunEnd(s: string, i: nat, cls: CharClass): (j: nat)
    requires i <= |s|
    ensures i <= j <= |s|
    ensures forall k :: i <= k < j ==> InClass(s[k], cls)
    ensures j == |s| || !InClass(s[j], cls)
    decreases |s| - i
  {
    if i < |s| && InClass(s[i], cls) then RunEnd(s, i + 1, cls) else i
  }

  /** The regular expression `m\s*(cls+)` matches at position i. Whitespace and
      the two classes are disjoint, so `\s*` matches exactly the maximal run. */
  predicate MatchAt(s: string, m: Marker, cls: CharClass, i: nat) {
    MarkerAt(s, m, i) &&
    var j := SkipSpace(s, i + Width(m));
    j < |s| && InClass(s[j], cls)
  }

  /** i is the leftmost match position. */
  ghost predicate FirstMatch(s: string, m: Marker, cls: CharClass, i: nat) {
    MatchAt(s, m, cls, i) && forall k: nat :: k < i ==> !MatchAt(s, m, cls, k)
  }

  /** The text of capture group 1 of a match at position i. */
  function Group(s: string, m: Marker, cls: CharClass, i: nat): (g: string)
    requires MatchAt(s, m, cls, i)
    ensures g != [] && forall k :: 0 <= k < |g| ==> InClass(g[k], cls)
  {
    var j := SkipSpace(s, i + Width(m));
    s[j..RunEnd(s, j, cls)]
  }

  /** The leftmost match position at or after i, as `re.search` scans. */
  function FindFrom(s: string, m: Marker, cls: CharClass, i: nat): (r: Option<nat>)
    requires i <= |s|
    ensures r.Some? ==> i <= r.value && MatchAt(s, m, cls, r.value)
    ensures r.Some? ==> forall k :: i <= k < r.value ==> !MatchAt(s, m, cls, k)
    ensures r.None? ==> forall k :: i <= k ==> !MatchAt(s, m, cls, k)
    decreases |s| - i
  {
    if MatchAt(s, m, cls, i) then Some(i)
    else if i == |s| then None
    else FindFrom(s, m, cls, i + 1)
  }

  /** `re.search(p + r'\s*(cls+)', s)`: group 1 of the leftmost match, if any. */
  function Search(s: string, m: Marker, cls: CharClass): (r: Option<string>)
    ensures r.None? <==> forall k :: !MatchAt(s, m, cls, k)
    ensures r.Some? ==> exists i :: FirstMatch(s, m, cls, i) && r.value == Group(s, m, cls, i)
  {
    match FindFrom(s, m, cls, 0)
    case None => None
    case Some(i) => assert FirstMatch(s, m, cls, i); Some(Group(s, m, cls, i))
  }

  /** There is only one leftmost match. */
  lemma FirstMatchUnique(s: string, m: Marker, cls: CharClass, i: nat, j: nat)
    requires FirstMatch(s, m, cls, i) && FirstMatch(s, m, cls, j)
    ensures i == j
  {
  }

  /** The number a search reads is the one after its leftmost match. */
  lemma SearchNumberAt(s: string, m: Marker, i: nat)
    requires FirstMatch(s, m, Digit, i)
    ensures SearchNumber(s, m) == Some(DigitsToNat(Group(s, m, Digit, i)))
  {
    var j :| FirstMatch(s, m, Digit, j) && SearchNumber(s, m).value == DigitsToNat(Group(s, m, Digit, j));
    FirstMatchUnique(s, m, Digit, i, j);
  }

  /** Two markers of one width that match at the same places scan alike from i on. */
  lemma {:induction false} FindFromAlike(s: string, m1: Marker, m2: Marker, cls: CharClass, i: nat)
    requires i <= |s| && Width(m1) == Width(m2)
    requires forall k: nat :: MatchAt(s, m1, cls, k) <==> MatchAt(s, m2, cls, k)
    ensures FindFrom(s, m1, cls, i) == FindFrom(s, m2, cls, i)
    decreases |s| - i
  {
    if !MatchAt(s, m1, cls, i) && i < |s| {
      FindFromAlike(s, m1, m2, cls, i + 1);
    }
  }

  /** Two markers of one width that match at the same places give the same search result. */
  lemma SearchAlike(s: string, m1: Marker, m2: Marker, cls: CharClass)
    requires Width(m1) == Width(m2)
    requires forall k: nat :: MatchAt(s, m1, cls, k) <==> MatchAt(s, m2, cls, k)
    ensures Search(s, m1, cls) == Search(s, m2, cls)
  {
    FindFromAlike(s, m1, m2, cls, 0);
    match FindFrom(s, m1, cls, 0)
    case None =>
    case Some(i) =>
      assert Group(s, m1, cls, i) == Group(s, m2, cls, i);
  }

  /** A string lacking the character at position p of sub does not contain sub. */
  lemma LacksChar(s: string, sub: string, p: nat)
    requires p < |sub| && forall j :: 0 <= j < |s| ==> s[j] != sub[p]
    ensures !Contains(s, sub)
  {
    ContainsIff(s, sub);
    forall i ensures !OccursAt(s, sub, i) {
      if 0 <= i && i + |sub| <= |s| {
        assert s[i..i + |sub|][p] == s[i + p];
      }
    }
  }

  /** `int(re.search(p + r'\s*(\d+)', s).group(1))`, or None when there is no match. */
  function SearchNumber(s: string, m: Marker): (r: Option<nat>)
    ensures r.None? <==> forall k :: !MatchAt(s, m, Digit, k)
    ensures r.Some? ==> exists i :: FirstMatch(s, m, Digit, i) && r.value == DigitsToNat(Group(s, m, Digit, i))
  {
    match Search(s, m, Digit)
    case None => None
    case Some(g) => Some(DigitsToNat(g))
  }

  // ---------------------------------------------------------------------
  // Decimal numerals
  // ---------------------------------------------------------------------

  function DigitValue(c: char): nat
    requires IsDigit(c)
  {
    c as int - '0' as int
  }

  function DigitChar(d: nat): (c: char)
    requires d < 10
    ensures IsDigit(c) && DigitValue(c) == d
  {
    ('0' as int + d) as char
  }

  /** `int(s)` for a string of ASCII digits (leading zeros allowed). */
  function DigitsToNat(s: string): nat
    requires AllDigits(s)
  {
    if s == [] then 0 else 10 * DigitsToNat(s[..|s| - 1]) + DigitValue(s[|s| - 1])
  }

  /** `str(n)` for a non-negative integer: digits only, no leading zero. */
  function NatToString(n: nat): (r: string)
    ensures r != [] && AllDigits(r)
    ensures |r| > 1 ==> r[0] != '0'
  {
    (if n < 10 then [] else NatToString(n / 10)) + [DigitChar(n % 10)]
  }

  /** A canonical numeral: no leading zero unless it is "0" itself. */
  predicate Canonical(s: string) {
    s != [] && AllDigits(s) && (|s| > 1 ==> s[0] != '0')
  }

  /** `int(str(n)) == n`. */
  lemma {:induction false} NatToStringRoundTrip(n: nat)
    ensures DigitsToNat(NatToString(n)) == n
  {
    var r := NatToString(n);
    if n >= 10 {
      assert r[..|r| - 1] == NatToString(n / 10);
      NatToStringRoundTrip(n / 10);
    }
  }

  lemma {:induction false} DigitsToNatZero(s: string)
    requires AllDigits(s) && DigitsToNat(s) == 0
    ensures forall k :: 0 <= k < |s| ==> s[k] == '0'
  {
    if s != [] {
      var a := s[..|s| - 1];
      DigitsToNatZero(a);
      forall k | 0 <= k < |s| ensures s[k] == '0' {
        if k < |a| { assert s[k] == a[k]; }
      }
    }
  }

  /** `str(int(s)) == s` exactly for canonical numerals. */
  lemma {:induction false} CanonicalRoundTrip(s: string)
    requires Canonical(s)
    ensures NatToString(DigitsToNat(s)) == s
    decreases |s|
  {
    var a := s[..|s| - 1];
    var n := DigitsToNat(s);
    if a == [] {
      assert n == DigitValue(s[0]) && n < 10;
      assert NatToString(n) == [DigitChar(n)];
    } else {
      assert a[0] == s[0];
      if DigitsToNat(a) == 0 {
        DigitsToNatZero(a);
        assert false;
      }
      assert n / 10 == DigitsToNat(a) && n % 10 == DigitValue(s[|s| - 1]);
      CanonicalRoundTrip(a);
      assert s == a + [s[|s| - 1]];
    }
  }

  /** Distinct numbers have distinct numerals. */
  lemma NatToStringInjective(m: nat, n: nat)
    requires NatToString(m) == NatToString(n)
    ensures m == n
  {
    NatToStringRoundTrip(m);
    NatToStringRoundTrip(n);
  }

  function Zeros(k: nat): (z: string)
    ensures |z| == k && forall i :: 0 <= i < k ==> z[i] == '0'
  {
    if k == 0 then [] else ['0'] + Zeros(k - 1)
  }

  /** `f"{n:03d}"`: at least three digits, padded with leading zeros. */
  function Pad3(n: nat): string {
    var digits := NatToString(n);
    Zeros(if |digits| < 3 then 3 - |digits| else 0) + digits
  }

  lemma {:induction false} LeadingZeros(k: nat, s: string)
    requires AllDigits(s)
    ensures AllDigits(Zeros(k) + s) && DigitsToNat(Zeros(k) + s) == DigitsToNat(s)
    decreases |s|
  {
    var t := Zeros(k) + s;
    if s == [] {
      assert t == Zeros(k);
      ZerosValue(k);
    } else {
      assert t[..|t| - 1] == Zeros(k) + s[..|s| - 1];
      LeadingZeros(k, s[..|s| - 1]);
    }
  }

  lemma {:induction false} ZerosValue(k: nat)
    ensures DigitsToNat(Zeros(k)) == 0
  {
    if k > 0 {
      var z := Zeros(k);
      assert z[..k - 1] == Zeros(k - 1);
      ZerosValue(k - 1);
    }
  }

  /** A padded id is a numeral of at least three digits that reads back as n. */
  lemma Pad3RoundTrip(n: nat)
    ensures AllDigits(Pad3(n)) && |Pad3(n)| >= 3
    ensures DigitsToNat(Pad3(n)) == n
  {
    var digits := NatToString(n);
    LeadingZeros(if |digits| < 3 then 3 - |digits| else 0, digits);
    NatToStringRoundTrip(n);
  }

  lemma Pad3Injective(m: nat, n: nat)
    requires Pad3(m) == Pad3(n)
    ensures m == n
  {
    Pad3RoundTrip(m);
    Pad3RoundTrip(n);
  }

  // ---------------------------------------------------------------------
  // str(i) and int(text) for signed integers
  // ---------------------------------------------------------------------

  /** `str(i)` for any integer: a minus sign before the magnitude when negative. */
  function IntToString(i: int): (r: string)
    ensures r != [] && !IsSpace(r[0]) && !IsSpace(r[|r| - 1])
  {
    if i < 0 then "-" + NatToString(-i) else NatToString(i)
  }

  /** Python's `int(text)` on a string: surrounding whitespace is ignored, one optional
      sign, then one or more ASCII digits (leading zeros allowed); anything else is a
      ValueError, modelled as None. */
  function ParseInt(s: string): (r: Option<int>)
    ensures AllSpace(s) ==> r.None?
  {
    StripEmptyIff(s);
    ParseSigned(Strip(s))
  }

  /** `int(text)` on text without surrounding whitespace. */
  function ParseSigned(t: string): Option<int>
  {
    if t == [] then None
    else if t[0] == '-' then
      match ParseUnsigned(t[1..])
      case None => None
      case Some(v) => Some(-v)
    else if t[0] == '+' then ParseUnsigned(t[1..])
    else ParseUnsigned(t)
  }

  /** One or more ASCII digits, read as a decimal number. */
  function ParseUnsigned(digits: string): Option<int>
  {
    if digits != [] && AllDigits(digits) then Some(DigitsToNat(digits)) else None
  }

  /** A string that neither starts nor ends with whitespace is its own strip. */
  lemma StripUnpadded(s: string)
    requires s == [] || (!IsSpace(s[0]) && !IsSpace(s[|s| - 1]))
    ensures Strip(s) == s
  {
  }

  lemma ParseNegative(i: int)
    requires i < 0
    ensures ParseSigned(IntToString(i)) == Some(i)
  {
    var digits := NatToString(-i);
    var t := ['-'] + digits;
    assert ParseUnsigned(digits) == Some(-i) by { NatToStringRoundTrip(-i); }
    assert t[1..] == digits;
    assert IntToString(i) == t;
  }

  lemma ParseNatural(i: int)
    requires i >= 0
    ensures ParseSigned(IntToString(i)) == Some(i)
  {
    var digits := NatToString(i);
    assert ParseUnsigned(digits) == Some(i) by { NatToStringRoundTrip(i); }
    assert IsDigit(digits[0]);
  }

  lemma ParseDigits(digits: string)
    requires digits != [] && AllDigits(digits)
    ensures ParseInt(digits) == Some(DigitsToNat(digits))
  {
    assert IsDigit(digits[0]) && IsDigit(digits[|digits| - 1]);
    StripUnpadded(digits);
  }

  /** `int(str(i)) == i` for every integer. */
  lemma ParseIntRoundTrip(i: int)
    ensures ParseInt(IntToString(i)) == Some(i)
  {
    var t := IntToString(i);
    assert ParseSigned(t) == Some(i) by {
      if i < 0 { ParseNegative(i); } else { ParseNatural(i); }
    }
    assert Strip(t) == t by { StripUnpadded(t); }
  }

  /** Whitespace around the text does not change what `int(text)` reads. */
  lemma ParseIntStripped(s: string)
    ensures ParseInt(Strip(s)) == ParseInt(s)
  {
    StripIdempotent(s);
  }
}
