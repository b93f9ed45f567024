/** The Python string operations the core relies on, over `seq<char>`.
    Character classes are those of Latin-1; see README for what lies beyond. */
module Text {
  import opened Wrappers

  // ---------------------------------------------------------------- characters

  /** `str.isspace()` and the regex class `\s`, restricted to Latin-1. */
  predicate IsSpace(c: char)
  {
    ('\t' <= c <= '\r') || ('\U{1C}' <= c <= '\U{1F}') || c == ' ' || c == '\U{85}' || c == '\U{A0}'
  }

  predicate IsAsciiLetter(c: char)
  {
    'A' <= c <= 'Z' || 'a' <= c <= 'z'
  }

  predicate IsDigit(c: char)
  {
    '0' <= c <= '9'
  }

  /** `str.lower()` on one character: ASCII and Latin-1 capitals map to their small letters. */
  function LowerChar(c: char): char
  {
    if 'A' <= c <= 'Z' || ('\U{C0}' <= c <= '\U{DE}' && c != '\U{D7}') then (c as int + 32) as char else c
  }

  function UpperChar(c: char): char
  {
    if 'a' <= c <= 'z' then (c as int - 32) as char else c
  }

  // ---------------------------------------------------------------- strip / lower

  /** The index of the first character of `s` at or after `i` that is not whitespace, or `|s|`. */
  function SkipSpaces(s: string, i: nat): (n: nat)
    requires i <= |s|
    ensures i <= n <= |s|
    ensures forall k :: i <= k < n ==> IsSpace(s[k])
    ensures n < |s| ==> !IsSpace(s[n])
    decreases |s| - i
  {
    if i < |s| && IsSpace(s[i]) then SkipSpaces(s, i + 1) else i
  }

  /** The index just past the last character of `s[lo..j]` that is not whitespace, or `lo`. */
  function BackSpaces(s: string, lo: nat, j: nat): (n: nat)
    requires lo <= j <= |s|
    ensures lo <= n <= j
    ensures forall k :: n <= k < j ==> IsSpace(s[k])
    ensures lo < n ==> !IsSpace(s[n - 1])
  {
    if lo < j && IsSpace(s[j - 1]) then BackSpaces(s, lo, j - 1) else j
  }

  /** `str.strip()`: the slice of the input left once the whitespace before and after it is
      removed; as its ends are not whitespace, that slice is the only one. */
  function Strip(s: string): (r: string)
    ensures |r| <= |s|
    ensures exists i, j :: 0 <= i <= j <= |s| && r == s[i..j]
                           && (forall k :: 0 <= k < i ==> IsSpace(s[k]))
                           && (forall k :: j <= k < |s| ==> IsSpace(s[k]))
    ensures r != [] ==> !IsSpace(r[0]) && !IsSpace(r[|r| - 1])
    ensures r == [] <==> forall k :: 0 <= k < |s| ==> IsSpace(s[k])
  {
    var i := SkipSpaces(s, 0);
    var j := BackSpaces(s, i, |s|);
    s[i..j]
  }

  /** A string that neither starts nor ends with whitespace is its own strip. */
  lemma StripUnpadded(s: string)
    requires s != [] ==> !IsSpace(s[0]) && !IsSpace(s[|s| - 1])
    ensures Strip(s) == s
  {
  }

  /** `str.lower()`, character by character. */
  function Lower(s: string): (r: string)
    ensures |r| == |s|
    ensures forall k :: 0 <= k < |s| ==> r[k] == LowerChar(s[k])
  {
    seq(|s|, k requires 0 <= k < |s| => LowerChar(s[k]))
  }

  /** `s.replace('_', ' ')`. */
  function SpaceUnderscores(s: string): (r: string)
    ensures |r| == |s|
    ensures forall k :: 0 <= k < |s| ==> r[k] == if s[k] == '_' then ' ' else s[k]
  {
    if s == [] then [] else [if s[0] == '_' then ' ' else s[0]] + SpaceUnderscores(s[1..])
  }

  /** `str.title()` on ASCII text: a letter is capitalised when it does not follow a letter,
      and put in lower case when it does; other characters are kept. */
  function TitleAfter(s: string, afterLetter: bool): (r: string)
    ensures |r| == |s|
  {
    if s == [] then []
    else
      var c := s[0];
      [if !IsAsciiLetter(c) then c else if afterLetter then LowerChar(c) else UpperChar(c)]
        + TitleAfter(s[1..], IsAsciiLetter(c))
  }

  function Title(s: string): string
  {
    TitleAfter(s, false)
  }

  /** `code.replace('_', ' ').title()`, the way the code prints a country or a key. */
  function Display(code: string): string
  {
    Title(SpaceUnderscores(code))
  }

  // ---------------------------------------------------------------- substring search

  predicate StartsWith(s: string, prefix: string)
  {
    |prefix| <= |s| && s[..|prefix|] == prefix
  }

  /** Python's `sub in s`. */
  predicate Contains(s: string, sub: string)
  {
    StartsWith(s, sub) || (s != [] && Contains(s[1..], sub))
  }

  lemma {:induction false} ContainsAt(s: string, sub: string, k: nat)
    requires k + |sub| <= |s| && s[k..k + |sub|] == sub
    ensures Contains(s, sub)
  {
    if k > 0 {
      assert s[1..][k - 1..k - 1 + |sub|] == sub;
      ContainsAt(s[1..], sub, k - 1);
    }
  }

  lemma {:induction false} ContainsWitness(s: string, sub: string) returns (k: nat)
    requires Contains(s, sub)
    ensures k + |sub| <= |s| && s[k..k + |sub|] == sub
  {
    if StartsWith(s, sub) {
      k := 0;
    } else {
      var j := ContainsWitness(s[1..], sub);
      assert s[1..][j..j + |sub|] == s[j + 1..j + 1 + |sub|];
      k := j + 1;
    }
  }

  /** A string contains every string that it contains somewhere inside. */
  lemma ContainsInfix(a: string, b: string, c: string, sub: string)
    requires Contains(b, sub)
    ensures Contains(a + b + c, sub)
  {
    var k := ContainsWitness(b, sub);
    assert (a + b + c)[|a| + k..|a| + k + |sub|] == b[k..k + |sub|];
    ContainsAt(a + b + c, sub, |a| + k);
  }

  /** `str.find(sep)`: where the first occurrence of `sep` starts, if there is one. */
  function Find(s: string, sep: string): (r: Option<nat>)
    ensures r.Some? ==> r.value + |sep| <= |s| && s[r.value..r.value + |sep|] == sep
    ensures r.Some? ==> forall k :: 0 <= k < r.value ==> !StartsWith(s[k..], sep)
    ensures r.None? <==> !Contains(s, sep)
  {
    if StartsWith(s, sep) then Some(0)
    else if s == [] then None
    else
      var rest := Find(s[1..], sep);
      assert forall k :: 1 <= k <= |s| ==> s[k..] == s[1..][k - 1..];
      if rest.Some? then Some(rest.value + 1) else None
  }

  // ---------------------------------------------------------------- split / join / replace

  /** `s.split(sep)` for a non-empty separator: the pieces between non-overlapping
      occurrences of `sep`, scanning from the left. */
  function Split(s: string, sep: string): (parts: seq<string>)
    requires sep != []
    ensures parts != []
    decreases |s|
  {
    var i := Find(s, sep);
    if i.None? then [s] else [s[..i.value]] + Split(s[i.value + |sep|..], sep)
  }

  /** `sep.join(parts)`. */
  function Join(parts: seq<string>, sep: string): string
  {
    if |parts| == 0 then [] else if |parts| == 1 then parts[0] else parts[0] + sep + Join(parts[1..], sep)
  }

  /** Joining the pieces of a split with the same separator gives back the input. */
  lemma {:induction false} JoinSplit(s: string, sep: string)
    requires sep != []
    ensures Join(Split(s, sep), sep) == s
    decreases |s|
  {
    var i := Find(s, sep);
    if i.Some? {
      var rest := s[i.value + |sep|..];
      JoinSplit(rest, sep);
      assert s == s[..i.value] + sep + rest;
    }
  }

  /** No piece of a split contains the separator. */
  lemma {:induction false} SplitPiecesAvoidSeparator(s: string, sep: string)
    requires sep != []
    ensures forall p :: p in Split(s, sep) ==> !Contains(p, sep)
    decreases |s|
  {
    var i := Find(s, sep);
    if i.Some? {
      var head, rest := s[..i.value], s[i.value + |sep|..];
      SplitPiecesAvoidSeparator(rest, sep);
      PrefixBeforeFirstAvoids(s, sep, i.value);
      assert Split(s, sep) == [head] + Split(rest, sep);
      forall p | p in Split(s, sep)
        ensures !Contains(p, sep)
      {
        if p != head {
          assert p in Split(rest, sep);
        }
      }
    }
  }

  lemma {:induction false} PrefixBeforeFirstAvoids(s: string, sep: string, i: nat)
    requires sep != [] && i <= |s|
    requires forall k :: 0 <= k < i ==> !StartsWith(s[k..], sep)
    ensures !Contains(s[..i], sep)
  {
    if i > 0 {
      assert s[0..] == s;
      assert forall k :: 0 <= k < i - 1 ==> s[1..][k..] == s[k + 1..];
      PrefixBeforeFirstAvoids(s[1..], sep, i - 1);
      assert s[..i][1..] == s[1..][..i - 1];
    }
  }

  /** `s.replace(target, replacement)` for a non-empty `target`. */
  function ReplaceAll(s: string, target: string, replacement: string): string
    requires target != []
  {
    Join(Split(s, target), replacement)
  }

  /** Removing a prefix `p` with `replace(p, '')` leaves the rest when the rest holds no `p`. */
  lemma RemovePrefix(p: string, t: string)
    requires p != [] && !Contains(t, p)
    ensures ReplaceAll(p + t, p, "") == t
  {
    assert StartsWith(p + t, p);
    assert Find(p + t, p) == Some(0);
    assert (p + t)[|p|..] == t;
    assert (p + t)[..0] == [];
    assert Find(t, p).None?;
    assert Split(t, p) == [t];
    assert Split(p + t, p) == [[]] + [t];
    assert Join([[], t], "") == [] + "" + Join([t], "");
  }

  /** A string that lacks one of the characters of `sub` cannot contain `sub`. */
  lemma {:induction false} MissingCharNotContained(s: string, sub: string, c: char)
    requires c in sub && forall k :: 0 <= k < |s| ==> s[k] != c
    ensures !Contains(s, sub)
  {
    assert !StartsWith(s, sub);
    if s != [] {
      MissingCharNotContained(s[1..], sub, c);
    }
  }

  /** `sub` is not in `s` when its first character occurs only too late for `sub` to fit. */
  lemma {:induction false} FirstCharTooLate(s: string, sub: string, from: nat)
    requires sub != [] && from <= |s| && |s| - from < |sub|
    requires forall k :: 0 <= k < from ==> s[k] != sub[0]
    ensures !Contains(s, sub)
  {
    if s != [] {
      assert !StartsWith(s, sub) by {
        if from > 0 && |sub| <= |s| {
          assert s[..|sub|][0] == s[0];
        }
      }
      FirstCharTooLate(s[1..], sub, if from > 0 then from - 1 else 0);
    }
  }

  /** Splitting `a + sep + rest` cuts at the `sep` after `a` when no character of `a` occurs
      in `sep`. */
  lemma SplitFirst(a: string, sep: string, rest: string)
    requires sep != []
    requires forall k :: 0 <= k < |a| ==> a[k] !in sep
    ensures Split(a + sep + rest, sep) == [a] + Split(rest, sep)
  {
    var s := a + sep + rest;
    assert s[|a|..|a| + |sep|] == sep;
    ContainsAt(s, sep, |a|);
    var i := Find(s, sep).value;
    assert s[|a|..][..|sep|] == sep;
    assert StartsWith(s[|a|..], sep);
    assert i <= |a|;
    assert s[i..i + |sep|][0] == sep[0] && sep[0] in sep;
    assert i >= |a|;
    assert s[..|a|] == a && s[|a| + |sep|..] == rest;
  }

  /** Splitting `a + sep + b` gives `[a, b]` when no character of `a` occurs in `sep`
      and `b` holds no `sep`. */
  lemma SplitAtSeparator(a: string, sep: string, b: string)
    requires sep != [] && !Contains(b, sep)
    requires forall k :: 0 <= k < |a| ==> a[k] !in sep
    ensures Split(a + sep + b, sep) == [a, b]
  {
    SplitFirst(a, sep, b);
    assert Split(b, sep) == [b];
  }

  // ---------------------------------------------------------------- padding

  function Repeat(c: char, n: nat): (r: string)
    ensures |r| == n && forall k :: 0 <= k < n ==> r[k] == c
  {
    seq(n, _ => c)
  }

  /** `s.zfill(width)`: pads with '0' on the left up to `width` characters, after a leading sign. */
  function ZFill(s: string, width: nat): (r: string)
  {
    if |s| >= width then s
    else if s != [] && (s[0] == '+' || s[0] == '-') then [s[0]] + Repeat('0', width - |s|) + s[1..]
    else Repeat('0', width - |s|) + s
  }

  /** A digit string no longer than the width is padded with zeros on the left. */
  lemma ZFillDigits(s: string, width: nat)
    requires AllDigits(s) && |s| <= width
    ensures ZFill(s, width) == Repeat('0', width - |s|) + s
  {
    if |s| == width {
      assert Repeat('0', 0) + s == s;
    } else if s != [] {
      assert IsDigit(s[0]);
    }
  }

  // ---------------------------------------------------------------- integers

  predicate AllDigits(s: string)
  {
    forall k :: 0 <= k < |s| ==> IsDigit(s[k])
  }

  function DigitValue(c: char): nat
    requires IsDigit(c)
  {
    c as int - '0' as int
  }

  function DigitChar(d: nat): (c: char)
    requires d < 10
    ensures IsDigit(c) && DigitValue(c) == d
  {
    ('0' as int + d) as char
  }

  /** The value of a string of decimal digits. */
  function DigitsValue(s: string): nat
    requires AllDigits(s)
  {
    if s == [] then 0 else DigitsValue(s[..|s| - 1]) * 10 + DigitValue(s[|s| - 1])
  }

  /** Leading zeros do not change the value of a digit string. */
  lemma {:induction false} LeadingZeros(n: nat, s: string)
    requires AllDigits(s)
    ensures AllDigits(Repeat('0', n) + s)
    ensures DigitsValue(Repeat('0', n) + s) == DigitsValue(s)
    decreases |s|
  {
    var z := Repeat('0', n);
    if s == [] {
      assert z + s == z;
      ZerosValue(n);
    } else {
      var init := s[..|s| - 1];
      LeadingZeros(n, init);
      assert (z + s)[..|z + s| - 1] == z + init;
    }
  }

  lemma {:induction false} ZerosValue(n: nat)
    ensures AllDigits(Repeat('0', n)) && DigitsValue(Repeat('0', n)) == 0
  {
    if n > 0 {
      ZerosValue(n - 1);
      assert Repeat('0', n)[..n - 1] == Repeat('0', n - 1);
    }
  }

  /** `str(n)` for a natural number. */
  function NatToString(n: nat): (s: string)
    ensures s != [] && AllDigits(s)
  {
    if n < 10 then [DigitChar(n)] else NatToString(n / 10) + [DigitChar(n % 10)]
  }

  lemma {:induction false} NatToStringValue(n: nat)
    ensures DigitsValue(NatToString(n)) == n
  {
    if n >= 10 {
      NatToStringValue(n / 10);
      var s := NatToString(n);
      assert s[..|s| - 1] == NatToString(n / 10);
    }
  }

  /** `int(str(n))` gives `n` back for a natural number. */
  lemma NatToStringParses(n: nat)
    ensures ParseInt(NatToString(n)) == Some(n)
  {
    NatToStringValue(n);
    ParseDigits(NatToString(n));
  }

  /** `str(i)`. */
  function IntToString(i: int): string
  {
    if i < 0 then ['-'] + NatToString(-i) else NatToString(i)
  }

  /** `str(i)` holds only a sign and digits. */
  lemma IntToStringLacks(i: int, c: char)
    requires c != '-' && !IsDigit(c)
    ensures forall k :: 0 <= k < |IntToString(i)| ==> IntToString(i)[k] != c
  {
    var s := IntToString(i);
    if i < 0 {
      var d := NatToString(-i);
      assert s == ['-'] + d;
      assert forall k :: 1 <= k < |s| ==> s[k] == d[k - 1];
    }
  }

  /** Python's `int(s)` on ASCII text: optional surrounding whitespace, an optional sign,
      then at least one decimal digit. */
  function ParseInt(s: string): (r: Option<int>)
    ensures r.Some? ==> Strip(s) != []
  {
    ParseStripped(Strip(s))
  }

  function ParseStripped(t: string): (r: Option<int>)
    ensures r.Some? ==> t != []
  {
    if t != [] && (t[0] == '+' || t[0] == '-') then
      var ds := t[1..];
      if ds != [] && AllDigits(ds) then Some(if t[0] == '-' then -(DigitsValue(ds) as int) else DigitsValue(ds))
      else None
    else if t != [] && AllDigits(t) then Some(DigitsValue(t))
    else None
  }

  lemma ParseDigits(ds: string)
    requires ds != [] && AllDigits(ds)
    ensures ParseInt(ds) == Some(DigitsValue(ds))
  {
    StripUnpadded(ds);
  }

  lemma ParseNegative(ds: string)
    requires ds != [] && AllDigits(ds)
    ensures ParseInt(['-'] + ds) == Some(-(DigitsValue(ds) as int))
  {
    var s := ['-'] + ds;
    assert s[|s| - 1] == ds[|ds| - 1];
    StripUnpadded(s);
    assert s[1..] == ds;
  }

  /** `int(str(i)) == i`. */
  lemma ParseIntRoundTrip(i: int)
    ensures ParseInt(IntToString(i)) == Some(i)
  {
    var n: nat := if i < 0 then -i else i;
    var ds := NatToString(n);
    NatToStringValue(n);
    if i < 0 {
      ParseNegative(ds);
    } else {
      ParseDigits(ds);
    }
  }
}
