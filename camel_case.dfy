/** `format_to_camel_case`: text containing `_` or `-` has every run of
    them turned into a space, is title-cased, loses its spaces and gets a
    lower-case first character; other text is returned unchanged. */
module CamelCase {
  import opened Wrappers
  import opened Strings

  predicate IsSeparator(c: char) { c == '_' || c == '-' }

  predicate HasSeparator(text: string)
  {
    exists i :: 0 <= i < |text| && IsSeparator(text[i])
  }

  /** `re.sub(r"(_|-)+", " ", text)`. */
  function Collapse(text: string): (r: string)
    ensures forall i :: 0 <= i < |r| ==> !IsSeparator(r[i])
    decreases |text|
  {
    if |text| == 0 then ""
    else if IsSeparator(text[0]) then " " + Collapse(SkipSeparators(text[1..]))
    else [text[0]] + Collapse(text[1..])
  }

  /** Drops the separators at the front of `text`. */
  function SkipSeparators(text: string): (r: string)
    ensures |r| <= |text| && (|r| > 0 ==> !IsSeparator(r[0]))
    ensures forall i :: 0 <= i < |text| - |r| ==> IsSeparator(text[i])
    ensures r == text[|text| - |r|..]
  {
    if |text| > 0 && IsSeparator(text[0]) then SkipSeparators(text[1..]) else text
  }

  /** `str.title()`: a cased character is upper-cased when the character
      before it is not cased, and lower-cased otherwise. */
  function Title(s: string): (r: string)
    ensures |r| == |s|
  {
    seq(|s|, i requires 0 <= i < |s| =>
      if !IsCased(s[i]) then s[i]
      else if i > 0 && IsCased(s[i - 1]) then Lower(s[i])
      else Upper(s[i]))
  }

  /** `s.replace(" ", "")`. */
  function RemoveSpaces(s: string): (r: string)
    ensures forall i :: 0 <= i < |r| ==> r[i] != ' '
    ensures |r| <= |s|
  {
    if |s| == 0 then ""
    else if s[0] == ' ' then RemoveSpaces(s[1..])
    else [s[0]] + RemoveSpaces(s[1..])
  }

  /** `format_to_camel_case(text)`; the first character of the title-cased
      text is taken with `s[0]`, which fails when nothing is left. */
  function FormatToCamelCase(text: string): (r: Result<string>)
  {
    if HasSeparator(text) then
      var s := RemoveSpaces(Title(Collapse(text)));
      if |s| == 0 then Err(IndexError) else Ok([Lower(s[0])] + s[1..])
    else Ok(text)
  }

  /** Text without separators is returned unchanged. */
  lemma CamelCaseUnchanged(text: string)
    requires !HasSeparator(text)
    ensures FormatToCamelCase(text) == Ok(text)
  {
  }

  /** A converted text has no separators and no spaces, and does not start
      with an upper-case letter; any result has no separators. */
  lemma CamelCaseShape(text: string)
    requires FormatToCamelCase(text).Ok?
    ensures var r := FormatToCamelCase(text).value;
            !HasSeparator(r)
            && (HasSeparator(text) ==> |r| > 0 && !IsUpper(r[0]) && forall i :: 0 <= i < |r| ==> r[i] != ' ')
  {
    if HasSeparator(text) {
      var t := Title(Collapse(text));
      TitleKeepsSeparators(Collapse(text));
      RemoveSpacesKeeps(t);
      var s := RemoveSpaces(t);
      var r := [Lower(s[0])] + s[1..];
      assert forall i :: 1 <= i < |r| ==> r[i] == s[i];
    }
  }

  /** Converting twice is converting once. */
  lemma CamelCaseIdempotent(text: string)
    requires FormatToCamelCase(text).Ok?
    ensures FormatToCamelCase(FormatToCamelCase(text).value) == FormatToCamelCase(text)
  {
    CamelCaseShape(text);
  }

  /** The conversion fails exactly on text that has a separator and
      consists only of separators and spaces. */
  lemma CamelCaseIndexError(text: string)
    ensures FormatToCamelCase(text).Err? <==>
              HasSeparator(text) && forall i :: 0 <= i < |text| ==> IsSeparator(text[i]) || text[i] == ' '
    ensures FormatToCamelCase(text).Err? ==> FormatToCamelCase(text).error == IndexError
  {
    CollapseBlank(text);
    TitleBlank(Collapse(text));
    RemoveSpacesEmpty(Title(Collapse(text)));
  }

  /** Up to case, the conversion only drops separators and spaces. */
  lemma CamelCaseLetters(text: string)
    requires HasSeparator(text) && FormatToCamelCase(text).Ok?
    ensures LowerString(FormatToCamelCase(text).value) == LowerString(Keep(text))
  {
    var c := Collapse(text);
    var t := Title(c);
    var s := RemoveSpaces(t);
    var r := [Lower(s[0])] + s[1..];
    TitleLower(c);
    RemoveSpacesLower(t);
    RemoveSpacesLower(c);
    CollapseKeep(text);
    assert LowerString(r) == LowerString(s) by {
      forall i | 0 <= i < |r| ensures LowerString(r)[i] == LowerString(s)[i] {
        CaseRoundTrip(s[i]);
      }
    }
  }

  /** The characters of `text` other than separators and spaces. */
  function Keep(text: string): string
  {
    if |text| == 0 then ""
    else if IsSeparator(text[0]) || text[0] == ' ' then Keep(text[1..])
    else [text[0]] + Keep(text[1..])
  }

  // ---------------------------------------------------------------------
  // Helper facts

  lemma TitleKeepsSeparators(s: string)
    requires forall i :: 0 <= i < |s| ==> !IsSeparator(s[i])
    ensures forall i :: 0 <= i < |Title(s)| ==> !IsSeparator(Title(s)[i])
  {
  }

  lemma {:induction false} RemoveSpacesKeeps(s: string)
    requires forall i :: 0 <= i < |s| ==> !IsSeparator(s[i])
    ensures forall i :: 0 <= i < |RemoveSpaces(s)| ==> !IsSeparator(RemoveSpaces(s)[i])
  {
    if |s| > 0 {
      RemoveSpacesKeeps(s[1..]);
    }
  }

  predicate AllSpaces(s: string) { forall i :: 0 <= i < |s| ==> s[i] == ' ' }

  predicate Blank(text: string)
  {
    forall i :: 0 <= i < |text| ==> IsSeparator(text[i]) || text[i] == ' '
  }

  lemma ConsBlank(c: char, s: string)
    ensures AllSpaces([c] + s) <==> c == ' ' && AllSpaces(s)
    ensures Blank([c] + s) <==> (IsSeparator(c) || c == ' ') && Blank(s)
  {
    var t := [c] + s;
    assert t[0] == c;
    assert forall i :: 0 <= i < |s| ==> t[i + 1] == s[i];
    assert forall i :: 1 <= i < |t| ==> t[i] == s[i - 1];
  }

  lemma {:induction false} BlankSkip(text: string)
    ensures Blank(text) <==> Blank(SkipSeparators(text))
  {
    if |text| > 0 && IsSeparator(text[0]) {
      BlankSkip(text[1..]);
      ConsBlank(text[0], text[1..]);
      assert text == [text[0]] + text[1..];
    }
  }

  /** The collapsed text is all spaces exactly when the text is all
      separators and spaces. */
  lemma {:induction false} CollapseBlank(text: string)
    ensures AllSpaces(Collapse(text)) <==> Blank(text)
    decreases |text|
  {
    if |text| > 0 {
      assert text == [text[0]] + text[1..];
      ConsBlank(text[0], text[1..]);
      if IsSeparator(text[0]) {
        var rest := SkipSeparators(text[1..]);
        CollapseBlank(rest);
        BlankSkip(text[1..]);
        ConsBlank(' ', Collapse(rest));
      } else {
        CollapseBlank(text[1..]);
        ConsBlank(text[0], Collapse(text[1..]));
      }
    }
  }

  lemma TitleBlank(s: string)
    ensures (forall i :: 0 <= i < |Title(s)| ==> Title(s)[i] == ' ') <==> (forall i :: 0 <= i < |s| ==> s[i] == ' ')
  {
    forall i | 0 <= i < |s| ensures Title(s)[i] == ' ' <==> s[i] == ' ' {
    }
  }

  lemma {:induction false} RemoveSpacesEmpty(s: string)
    ensures |RemoveSpaces(s)| == 0 <==> forall i :: 0 <= i < |s| ==> s[i] == ' '
  {
    if |s| > 0 {
      RemoveSpacesEmpty(s[1..]);
      assert forall i :: 1 <= i < |s| ==> s[i] == s[1..][i - 1];
    }
  }

  lemma TitleLower(s: string)
    ensures LowerString(Title(s)) == LowerString(s)
  {
    forall i | 0 <= i < |s| ensures LowerString(Title(s))[i] == LowerString(s)[i] {
      CaseRoundTrip(s[i]);
    }
  }

  lemma {:induction false} RemoveSpacesLower(s: string)
    ensures LowerString(RemoveSpaces(s)) == RemoveSpaces(LowerString(s))
  {
    if |s| > 0 {
      RemoveSpacesLower(s[1..]);
      assert LowerString(s)[1..] == LowerString(s[1..]);
    }
  }

  /** Dropping the spaces of the collapsed text leaves the kept characters. */
  lemma {:induction false} CollapseKeep(text: string)
    ensures RemoveSpaces(Collapse(text)) == Keep(text)
    decreases |text|
  {
    if |text| > 0 {
      if IsSeparator(text[0]) {
        var rest := SkipSeparators(text[1..]);
        CollapseKeep(rest);
        KeepSkip(text[1..]);
      } else {
        CollapseKeep(text[1..]);
      }
    }
  }

  lemma {:induction false} KeepSkip(text: string)
    ensures Keep(SkipSeparators(text)) == Keep(text)
  {
    if |text| > 0 && IsSeparator(text[0]) {
      KeepSkip(text[1..]);
    }
  }
}
