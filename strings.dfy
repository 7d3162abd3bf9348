/** String helpers shared by the formatting code of the model: decimal
    rendering of integers (Python's `str(n)`), `sep.join(parts)`, and the
    `str` methods the pipeline uses (`in`, `startswith`, `endswith`,
    `split`, `replace`, `lower`, `upper`, `strip`, `zfill`).  Case mapping
    covers ASCII letters, the Greek alpha of the X-ray source names and the
    Greek mu of the volume units. */
module Strings {

  predicate IsDigit(c: char) { '0' <= c <= '9' }

  function DigitChar(d: nat): (c: char)
    requires d < 10
    ensures IsDigit(c) && (c as int) - ('0' as int) == d
  {
    ['0', '1', '2', '3', '4', '5', '6', '7', '8', '9'][d]
  }

  /** Decimal digits of `n`, most significant first, without leading zeros. */
  function NatToString(n: nat): (s: string)
    ensures |s| > 0 && forall i :: 0 <= i < |s| ==> IsDigit(s[i])
    ensures |s| > 1 ==> s[0] != '0'
    decreases n
  {
    if n < 10 then [DigitChar(n)] else NatToString(n / 10) + [DigitChar(n % 10)]
  }

  /** Value of a sequence of decimal digits. */
  function DigitsValue(s: string): nat
    requires forall i :: 0 <= i < |s| ==> IsDigit(s[i])
  {
    if |s| == 0 then 0
    else 10 * DigitsValue(s[..|s| - 1]) + DigitValue(s[|s| - 1])
  }

  function DigitValue(c: char): (d: nat)
    requires IsDigit(c)
    ensures d < 10
  {
    (c as int) - ('0' as int)
  }

  /** Rendering is faithful: the digits read back as the number. */
  lemma {:induction false} NatToStringValue(n: nat)
    ensures DigitsValue(NatToString(n)) == n
    decreases n
  {
    if n >= 10 {
      NatToStringValue(n / 10);
      var s := NatToString(n);
      assert s[..|s| - 1] == NatToString(n / 10);
    }
  }

  /** Distinct numbers render differently. */
  lemma NatToStringInjective(m: nat, n: nat)
    requires NatToString(m) == NatToString(n)
    ensures m == n
  {
    NatToStringValue(m);
    NatToStringValue(n);
  }

  /** `sep.join(parts)`. */
  function Join(parts: seq<string>, sep: string): string
  {
    if |parts| == 0 then ""
    else if |parts| == 1 then parts[0]
    else parts[0] + sep + Join(parts[1..], sep)
  }

  /** Joining adds one separator between consecutive parts and nothing else. */
  lemma {:induction false} JoinLength(parts: seq<string>, sep: string)
    ensures |parts| > 0 ==>
              |Join(parts, sep)| == SumLengths(parts) + (|parts| - 1) * |sep|
    ensures |parts| == 0 ==> Join(parts, sep) == ""
  {
    if |parts| > 1 {
      JoinLength(parts[1..], sep);
    }
  }

  function SumLengths(parts: seq<string>): nat
  {
    if |parts| == 0 then 0 else |parts[0]| + SumLengths(parts[1..])
  }

  // ---------------------------------------------------------------------
  // Integers

  /** `str(i)`: a minus sign before the digits of a negative number. */
  function IntToString(i: int): (s: string)
    ensures |s| > 0
    ensures i >= 0 ==> s == NatToString(i)
    ensures i < 0 ==> s == "-" + NatToString(-i)
  {
    if i < 0 then "-" + NatToString(-i) else NatToString(i)
  }

  /** `s.zfill(width)`: zeros are inserted after a leading sign until the
      string is `width` long. */
  function ZFill(s: string, width: nat): (r: string)
  {
    if |s| >= width then s
    else if |s| > 0 && (s[0] == '+' || s[0] == '-') then [s[0]] + Zeros(width - |s|) + s[1..]
    else Zeros(width - |s|) + s
  }

  function Zeros(k: nat): (z: string)
    ensures |z| == k && forall i :: 0 <= i < k ==> z[i] == '0'
  {
    if k == 0 then "" else "0" + Zeros(k - 1)
  }

  /** Padding a rendered number keeps its value and reaches the width. */
  lemma ZFillNat(n: nat, width: nat)
    ensures var r := ZFill(NatToString(n), width);
            |r| == (if |NatToString(n)| >= width then |NatToString(n)| else width)
            && (forall i :: 0 <= i < |r| ==> IsDigit(r[i]))
            && DigitsValue(r) == n
  {
    var s := NatToString(n);
    NatToStringValue(n);
    if |s| < width {
      assert s[0] != '+' && s[0] != '-' by { assert IsDigit(s[0]); }
      LeadingZeros(Zeros(width - |s|), s);
    }
  }

  lemma {:induction false} LeadingZeros(z: string, s: string)
    requires (forall i :: 0 <= i < |z| ==> z[i] == '0') && forall i :: 0 <= i < |s| ==> IsDigit(s[i])
    ensures forall i :: 0 <= i < |z + s| ==> IsDigit((z + s)[i])
    ensures DigitsValue(z + s) == DigitsValue(s) + 0
    decreases |s|
  {
    if |s| == 0 {
      assert z + s == z;
      AllZeros(z);
    } else {
      var t := z + s;
      assert t[..|t| - 1] == z + s[..|s| - 1];
      LeadingZeros(z, s[..|s| - 1]);
    }
  }

  lemma {:induction false} AllZeros(z: string)
    requires forall i :: 0 <= i < |z| ==> z[i] == '0'
    ensures DigitsValue(z) == 0
  {
    if |z| > 0 {
      AllZeros(z[..|z| - 1]);
    }
  }

  // ---------------------------------------------------------------------
  // Prefixes, suffixes and substrings

  predicate StartsWith(s: string, p: string) { |p| <= |s| && s[..|p|] == p }

  predicate EndsWith(s: string, p: string) { |p| <= |s| && s[|s| - |p|..] == p }

  /** `p` occurs in `s` at position `i`. */
  predicate OccursAt(s: string, p: string, i: int)
  {
    0 <= i && i + |p| <= |s| && s[i..i + |p|] == p
  }

  /** `p in s`, scanning from the left. */
  predicate Contains(s: string, p: string)
    decreases |s|
  {
    StartsWith(s, p) || (|s| > 0 && Contains(s[1..], p))
  }

  /** The scan finds exactly the positions where `p` occurs. */
  lemma {:induction false} ContainsSpec(s: string, p: string)
    ensures Contains(s, p) <==> exists i :: OccursAt(s, p, i)
    decreases |s|
  {
    if StartsWith(s, p) {
      assert OccursAt(s, p, 0);
    } else if |s| > 0 {
      ContainsSpec(s[1..], p);
      if exists i :: OccursAt(s[1..], p, i) {
        var i :| OccursAt(s[1..], p, i);
        assert s[i + 1..i + 1 + |p|] == s[1..][i..i + |p|];
        assert OccursAt(s, p, i + 1);
      }
      if exists i :: OccursAt(s, p, i) {
        var i :| OccursAt(s, p, i);
        assert i != 0;
        assert s[1..][i - 1..i - 1 + |p|] == s[i..i + |p|];
        assert OccursAt(s[1..], p, i - 1);
      }
    } else {
      assert |p| > 0;
    }
  }

  /** `s[..|s| - k]` of the `s[:-k]` slices. */
  function DropLast(s: string, k: nat): (r: string)
    requires k <= |s|
    ensures |r| == |s| - k && r == s[..|s| - k]
  {
    s[..|s| - k]
  }

  // ---------------------------------------------------------------------
  // split and replace

  /** `s.split(sep)` for a non-empty separator: the pieces between the
      occurrences of `sep`, found left to right without overlap. */
  function Split(s: string, sep: string): (r: seq<string>)
    requires |sep| > 0
    ensures |r| > 0
    decreases |s|
  {
    if |s| < |sep| then [s]
    else if s[..|sep|] == sep then [""] + Split(s[|sep|..], sep)
    else
      var rest := Split(s[1..], sep);
      [[s[0]] + rest[0]] + rest[1..]
  }

  /** Joining the pieces with the separator gives back the string. */
  lemma {:induction false} SplitJoin(s: string, sep: string)
    requires |sep| > 0
    ensures Join(Split(s, sep), sep) == s
    decreases |s|
  {
    if |s| >= |sep| {
      if s[..|sep|] == sep {
        SplitJoin(s[|sep|..], sep);
        var rest := Split(s[|sep|..], sep);
        assert ([""] + rest)[1..] == rest;
        assert s == sep + s[|sep|..];
      } else {
        SplitJoin(s[1..], sep);
        var rest := Split(s[1..], sep);
        JoinCons(s[0], rest, sep);
        assert s == [s[0]] + s[1..];
      }
    }
  }

  lemma JoinCons(c: char, parts: seq<string>, sep: string)
    requires |parts| > 0
    ensures Join([[c] + parts[0]] + parts[1..], sep) == [c] + Join(parts, sep)
  {
    var q := [[c] + parts[0]] + parts[1..];
    assert q[1..] == parts[1..];
  }

  /** The first piece is the text before the first occurrence of the
      separator: a prefix of `s` in which `sep` does not occur. */
  lemma {:induction false} SplitFirst(s: string, sep: string)
    requires |sep| > 0
    ensures var first := Split(s, sep)[0];
            StartsWith(s, first) && !Contains(first, sep)
            && (|Split(s, sep)| == 1 <==> first == s)
            && (|Split(s, sep)| == 1 <==> !Contains(s, sep))
    decreases |s|
  {
    var first := Split(s, sep)[0];
    if |s| < |sep| {
      NotContainsShort(s, sep);
    } else if s[..|sep|] == sep {
      assert first == "";
      assert !Contains(first, sep);
      SplitJoin(s[|sep|..], sep);
    } else {
      SplitFirst(s[1..], sep);
      var rest := Split(s[1..], sep);
      assert first == [s[0]] + rest[0];
      assert first[1..] == rest[0];
      assert s[..|first|] == [s[0]] + s[1..][..|rest[0]|];
      assert StartsWith(s, first);
      assert |first| >= |sep| ==> first[..|sep|] == s[..|sep|];
    }
  }

  lemma NotContainsShort(s: string, p: string)
    requires |s| < |p|
    ensures !Contains(s, p)
    decreases |s|
  {
    if |s| > 0 {
      NotContainsShort(s[1..], p);
    }
  }

  /** `sep` overlaps itself only trivially: no proper suffix of it is
      also a prefix. */
  predicate Unbordered(sep: string)
  {
    forall m :: 0 < m < |sep| ==> sep[m..] != sep[..|sep| - m]
  }

  /** What follows the first occurrence of an unbordered separator does not
      change the first piece. */
  lemma {:induction false} SplitBeforeFirst(t: string, sep: string, u: string)
    requires |sep| > 0 && Unbordered(sep) && !Contains(t, sep)
    ensures Split(t + sep + u, sep)[0] == t
    decreases |t|
  {
    var s := t + sep + u;
    if |t| == 0 {
      assert s[..|sep|] == sep;
    } else {
      NoSeparatorAtStart(t, sep, u);
      SplitBeforeFirst(t[1..], sep, u);
      assert s[1..] == t[1..] + sep + u;
      assert Split(s, sep)[0] == [s[0]] + Split(s[1..], sep)[0];
    }
  }

  /** A non-empty text without an unbordered separator, followed by the
      separator, does not start with it. */
  lemma NoSeparatorAtStart(t: string, sep: string, u: string)
    requires |sep| > 0 && Unbordered(sep) && !Contains(t, sep) && |t| > 0
    ensures (t + sep + u)[..|sep|] != sep
  {
    var s := t + sep + u;
    if |t| >= |sep| {
      assert s[..|sep|] == t[..|sep|];
    } else {
      var m := |t|;
      assert s[..|sep|][m..] == sep[..|sep| - m];
      assert sep[m..] != sep[..|sep| - m];
    }
  }

  /** `p` occurs at `k` and nowhere before. */
  predicate FirstOccurrence(s: string, p: string, k: int)
  {
    OccursAt(s, p, k) && forall j :: 0 <= j < k ==> !OccursAt(s, p, j)
  }

  /** With more than one piece, the first piece ends at the first
      occurrence of the separator and the other pieces split what follows
      it. */
  lemma SplitRest(s: string, sep: string)
    requires |sep| > 0 && |Split(s, sep)| > 1
    ensures var k := |Split(s, sep)[0]|;
            FirstOccurrence(s, sep, k) && Split(s, sep)[1..] == Split(s[k + |sep|..], sep)
  {
    SplitFirstOccurs(s, sep);
    SplitAfterFirst(s, sep);
  }

  lemma {:induction false} SplitFirstOccurs(s: string, sep: string)
    requires |sep| > 0 && |Split(s, sep)| > 1
    ensures FirstOccurrence(s, sep, |Split(s, sep)[0]|)
    decreases |s|
  {
    if |s| >= |sep| && s[..|sep|] != sep {
      var t := s[1..];
      var rest := Split(t, sep);
      SplitFirstOccurs(t, sep);
      assert Split(s, sep) == [[s[0]] + rest[0]] + rest[1..];
      var k' := |rest[0]|;
      var k := k' + 1;
      assert t[k'..k' + |sep|] == s[k..k + |sep|];
      forall j | 0 <= j < k
        ensures !OccursAt(s, sep, j)
      {
        if j > 0 && j + |sep| <= |s| {
          assert !OccursAt(t, sep, j - 1);
          assert t[j - 1..j - 1 + |sep|] == s[j..j + |sep|];
        }
      }
    }
  }

  lemma {:induction false} SplitAfterFirst(s: string, sep: string)
    requires |sep| > 0 && |Split(s, sep)| > 1
    ensures var k := |Split(s, sep)[0]|;
            k + |sep| <= |s| && Split(s, sep)[1..] == Split(s[k + |sep|..], sep)
    decreases |s|
  {
    if |s| >= |sep| && s[..|sep|] != sep {
      var t := s[1..];
      var rest := Split(t, sep);
      SplitAfterFirst(t, sep);
      assert Split(s, sep) == [[s[0]] + rest[0]] + rest[1..];
      var k' := |rest[0]|;
      assert t[k' + |sep|..] == s[k' + 1 + |sep|..];
    }
  }

  /** `s.replace(pat, rep)` for a non-empty `pat`: every occurrence, found
      left to right without overlap, is replaced. */
  function ReplaceAll(s: string, pat: string, rep: string): (r: string)
    requires |pat| > 0
    decreases |s|
  {
    if |s| < |pat| then s
    else if s[..|pat|] == pat then rep + ReplaceAll(s[|pat|..], pat, rep)
    else [s[0]] + ReplaceAll(s[1..], pat, rep)
  }

  /** Replacing is splitting at the occurrences and joining with the rep
      text. */
  lemma {:induction false} ReplaceIsSplitJoin(s: string, pat: string, rep: string)
    requires |pat| > 0
    ensures ReplaceAll(s, pat, rep) == Join(Split(s, pat), rep)
    decreases |s|
  {
    if |s| >= |pat| {
      if s[..|pat|] == pat {
        ReplaceIsSplitJoin(s[|pat|..], pat, rep);
        var rest := Split(s[|pat|..], pat);
        assert ([""] + rest)[1..] == rest;
      } else {
        ReplaceIsSplitJoin(s[1..], pat, rep);
        JoinCons(s[0], Split(s[1..], pat), rep);
      }
    }
  }

  /** A string without the pattern is left unchanged. */
  lemma {:induction false} ReplaceAbsent(s: string, pat: string, rep: string)
    requires |pat| > 0 && !Contains(s, pat)
    ensures ReplaceAll(s, pat, rep) == s
    decreases |s|
  {
    if |s| >= |pat| {
      assert !StartsWith(s, pat);
      ReplaceAbsent(s[1..], pat, rep);
    }
  }

  /** Replacing one character by another leaves none of the first. */
  lemma {:induction false} ReplaceCharGone(s: string, a: char, b: char)
    requires a != b
    ensures a !in ReplaceAll(s, [a], [b])
    ensures |ReplaceAll(s, [a], [b])| == |s|
    decreases |s|
  {
    if |s| >= 1 {
      ReplaceCharGone(s[1..], a, b);
    }
  }

  /** A piece without the separator followed by the separator is split
      off as the first piece. */
  lemma {:induction false} SplitCons(p: string, c: char, rest: string)
    requires c !in p
    ensures Split(p + [c] + rest, [c]) == [p] + Split(rest, [c])
    decreases |p|
  {
    var s := p + [c] + rest;
    if |p| == 0 {
      assert s[..1] == [c];
      assert s[1..] == rest;
    } else {
      assert s[..1] != [c] by { assert s[0] == p[0]; }
      assert s[1..] == p[1..] + [c] + rest;
      SplitCons(p[1..], c, rest);
      assert [p[0]] + p[1..] == p;
    }
  }

  /** A string without the separator is a single piece. */
  lemma {:induction false} SplitNone(p: string, c: char)
    requires c !in p
    ensures Split(p, [c]) == [p]
    decreases |p|
  {
    if |p| > 0 {
      assert p[..1] != [c] by { assert p[0] != c; }
      SplitNone(p[1..], c);
      assert [p[0]] + p[1..] == p;
    }
  }

  /** Splitting undoes joining with a one-character separator occurring in
      none of the parts. */
  lemma {:induction false} SplitOfJoin(parts: seq<string>, c: char)
    requires |parts| > 0 && forall i :: 0 <= i < |parts| ==> c !in parts[i]
    ensures Split(Join(parts, [c]), [c]) == parts
  {
    if |parts| == 1 {
      SplitNone(parts[0], c);
    } else {
      SplitOfJoin(parts[1..], c);
      SplitCons(parts[0], c, Join(parts[1..], [c]));
      assert parts[0] + [c] + Join(parts[1..], [c]) == Join(parts, [c]);
      assert [parts[0]] + parts[1..] == parts;
    }
  }

  /** Removing a suffix pattern whose first character `s` lacks leaves `s`. */
  lemma {:induction false} ReplaceSuffix(s: string, pat: string)
    requires |pat| > 0 && pat[0] !in s
    ensures ReplaceAll(s + pat, pat, "") == s
    decreases |s|
  {
    var t := s + pat;
    if |s| == 0 {
      assert t == pat;
      assert t[|pat|..] == "";
    } else {
      assert t[..|pat|] != pat by { assert t[0] == s[0]; }
      assert t[1..] == s[1..] + pat;
      ReplaceSuffix(s[1..], pat);
      assert [s[0]] + s[1..] == s;
    }
  }

  /** Replacing one character by another changes exactly the positions
      that hold the first. */
  lemma {:induction false} ReplaceCharAt(s: string, a: char, b: char)
    ensures |ReplaceAll(s, [a], [b])| == |s|
    ensures forall i :: 0 <= i < |s| ==> ReplaceAll(s, [a], [b])[i] == if s[i] == a then b else s[i]
    decreases |s|
  {
    if |s| > 0 {
      ReplaceCharAt(s[1..], a, b);
      var c := if s[0] == a then b else s[0];
      assert ReplaceAll(s, [a], [b]) == [c] + ReplaceAll(s[1..], [a], [b]);
    }
  }

  /** Replacing `b` by `a` undoes replacing `a` by `b` in a string that had
      no `b` to begin with. */
  lemma {:induction false} ReplaceCharBack(s: string, a: char, b: char)
    requires b !in s
    ensures ReplaceAll(ReplaceAll(s, [a], [b]), [b], [a]) == s
    decreases |s|
  {
    if |s| > 0 {
      ReplaceCharBack(s[1..], a, b);
      var t := ReplaceAll(s, [a], [b]);
      var c := if s[0] == a then b else s[0];
      assert t == [c] + ReplaceAll(s[1..], [a], [b]);
      assert t[1..] == ReplaceAll(s[1..], [a], [b]);
      assert [s[0]] + s[1..] == s;
    }
  }

  /** `os.path.basename(path)`: what follows the last `/`. */
  function BaseName(path: string): (r: string)
    ensures '/' !in r && EndsWith(path, r)
    ensures r != path ==> |r| < |path| && path[|path| - |r| - 1] == '/'
  {
    if |path| == 0 then ""
    else if path[|path| - 1] == '/' then ""
    else BaseName(path[..|path| - 1]) + [path[|path| - 1]]
  }

  /** A name without `/` is its own base name, after any directory. */
  lemma {:induction false} BaseNameAfterDir(dir: string, name: string)
    requires '/' !in name
    ensures BaseName(dir + "/" + name) == name
    decreases |name|
  {
    var p := dir + "/" + name;
    if |name| > 0 {
      assert p[..|p| - 1] == dir + "/" + name[..|name| - 1];
      BaseNameAfterDir(dir, name[..|name| - 1]);
      assert name[..|name| - 1] + [name[|name| - 1]] == name;
    }
  }

  // ---------------------------------------------------------------------
  // Case mapping and whitespace

  predicate IsUpper(c: char) { 'A' <= c <= 'Z' || c == 'Α' || c == 'Μ' }
  predicate IsLower(c: char) { 'a' <= c <= 'z' || c == 'α' || c == 'μ' }
  /** A character with case: only these are changed by `lower`, `upper`
      and `title`. */
  predicate IsCased(c: char) { IsUpper(c) || IsLower(c) }

  function Lower(c: char): (d: char)
    ensures !IsUpper(d) && (IsCased(c) <==> IsCased(d))
    ensures !IsCased(c) ==> d == c
  {
    if 'A' <= c <= 'Z' then (c as int + 32) as char
    else if c == 'Α' then 'α'
    else if c == 'Μ' then 'μ'
    else c
  }

  function Upper(c: char): (d: char)
    ensures !IsLower(d) && (IsCased(c) <==> IsCased(d))
    ensures !IsCased(c) ==> d == c
  {
    if 'a' <= c <= 'z' then (c as int - 32) as char
    else if c == 'α' then 'Α'
    else if c == 'μ' then 'Μ'
    else c
  }

  /** Both mappings keep the letter and only change its case. */
  lemma CaseRoundTrip(c: char)
    ensures Lower(Upper(c)) == Lower(c) && Lower(Lower(c)) == Lower(c)
    ensures Upper(Lower(c)) == Upper(c)
  {
  }

  function LowerString(s: string): (r: string)
    ensures |r| == |s| && forall i :: 0 <= i < |s| ==> r[i] == Lower(s[i])
  {
    seq(|s|, i requires 0 <= i < |s| => Lower(s[i]))
  }

  function UpperString(s: string): (r: string)
    ensures |r| == |s| && forall i :: 0 <= i < |s| ==> r[i] == Upper(s[i])
  {
    seq(|s|, i requires 0 <= i < |s| => Upper(s[i]))
  }

  /** The characters `str.strip()` removes: those Python counts as
      whitespace (`str.isspace`). */
  predicate IsSpace(c: char)
  {
    c == ' ' || '\t' <= c <= '\r' || '\U{1C}' <= c <= '\U{1F}' || c == '\U{85}' || c == '\U{A0}' || c == '\U{1680}'
    || '\U{2000}' <= c <= '\U{200A}' || c == '\U{2028}' || c == '\U{2029}' || c == '\U{202F}' || c == '\U{205F}'
    || c == '\U{3000}'
  }

  /** `s.strip()`. */
  function Strip(s: string): (r: string)
    ensures |r| <= |s|
    ensures |r| > 0 ==> !IsSpace(r[0]) && !IsSpace(r[|r| - 1])
  {
    StripRight(StripLeft(s))
  }

  function StripLeft(s: string): (r: string)
    ensures |r| <= |s| && (|r| > 0 ==> !IsSpace(r[0]))
    ensures r == s[|s| - |r|..]
  {
    if |s| > 0 && IsSpace(s[0]) then StripLeft(s[1..]) else s
  }

  function StripRight(s: string): (r: string)
    ensures |r| <= |s| && (|r| > 0 ==> !IsSpace(r[|r| - 1]))
    ensures r == s[..|r|]
  {
    if |s| > 0 && IsSpace(s[|s| - 1]) then StripRight(s[..|s| - 1]) else s
  }
}
