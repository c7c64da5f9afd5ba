/**
  The parts of Python's `str` that the BEEMs text handling relies on:
  `split(sep)`, `split()`, `strip()`, the `in` test for substrings,
  `lower()`, `replace(pat, "")`, and `int()` / `str()` on integers.
 */
module Text {
  import opened Wrappers

  // ---------------------------------------------------------------------
  // Whitespace, as Python's str.split() and str.strip() understand it
  // ---------------------------------------------------------------------

  /** Python's str.isspace() on one character. */
  predicate IsSpace(c: char) {
    c == ' ' || ('\t' <= c <= '\r') || ('\U{1C}' <= c <= '\U{1F}') ||
    c == '\U{85}' || c == '\U{A0}' || c == '\U{1680}' ||
    ('\U{2000}' <= c <= '\U{200A}') || c == '\U{2028}' || c == '\U{2029}' ||
    c == '\U{202F}' || c == '\U{205F}' || c == '\U{3000}'
  }

  predicate NoSpace(s: string) {
    forall i :: 0 <= i < |s| ==> !IsSpace(s[i])
  }

  function TrimLeft(s: string): (r: string)
    ensures |r| <= |s| && r == s[|s| - |r|..]
    ensures r != [] ==> !IsSpace(r[0])
  {
    if s != [] && IsSpace(s[0]) then TrimLeft(s[1..]) else s
  }

  function TrimRight(s: string): (r: string)
    ensures |r| <= |s| && r == s[..|r|]
    ensures r != [] ==> !IsSpace(r[|r| - 1])
  {
    if s != [] && IsSpace(s[|s| - 1]) then TrimRight(s[..|s| - 1]) else s
  }

  /** Python's str.strip() with no argument. */
  function Strip(s: string): string {
    TrimRight(TrimLeft(s))
  }

  lemma {:induction false} StripNoSpace(s: string)
    requires NoSpace(s)
    ensures Strip(s) == s
  {
    if s != [] {
      assert !IsSpace(s[0]) && !IsSpace(s[|s| - 1]);
    }
  }

  // ---------------------------------------------------------------------
  // str.split(sep) for a one-character separator
  // ---------------------------------------------------------------------

  /** Python's s.split(sep): the pieces between separators, never an empty list. */
  function Split(s: string, sep: char): (r: seq<string>)
    ensures |r| >= 1
    ensures forall i :: 0 <= i < |r| ==> sep !in r[i]
    decreases |s|
  {
    if s == [] then [""]
    else
      var rest := Split(s[1..], sep);
      if s[0] == sep then [""] + rest
      else [[s[0]] + rest[0]] + rest[1..]
  }

  lemma {:induction false} SplitNoSep(s: string, sep: char)
    requires sep !in s
    ensures Split(s, sep) == [s]
    decreases |s|
  {
    if s != [] {
      SplitNoSep(s[1..], sep);
      assert [s[0]] + s[1..] == s;
    }
  }

  /** A text that contains the separator splits into at least two pieces. */
  lemma {:induction false} SplitHasSep(s: string, sep: char)
    requires sep in s
    ensures |Split(s, sep)| >= 2
    decreases |s|
  {
    if s[0] != sep {
      SplitHasSep(s[1..], sep);
    }
  }

  /** Splitting at one separator splits the two sides independently. */
  lemma {:induction false} SplitAt(a: string, b: string, sep: char)
    ensures Split(a + [sep] + b, sep) == Split(a, sep) + Split(b, sep)
    decreases |a|
  {
    var s := a + [sep] + b;
    if a == [] {
      assert s[0] == sep && s[1..] == b;
    } else {
      assert s[0] == a[0] && s[1..] == a[1..] + [sep] + b;
      SplitAt(a[1..], b, sep);
      var ra, rb := Split(a[1..], sep), Split(b, sep);
      var rest := Split(s[1..], sep);
      assert rest == ra + rb;
      if a[0] != sep {
        assert rest[0] == ra[0];
        assert rest[1..] == ra[1..] + rb;
        assert Split(s, sep) == [[a[0]] + ra[0]] + (ra[1..] + rb);
        assert Split(a, sep) == [[a[0]] + ra[0]] + ra[1..];
      }
    }
  }

  /** The first piece of a split is the text before the first separator. */
  lemma {:induction false} SplitHead(a: string, b: string, sep: char)
    requires sep !in a
    ensures Split(a + [sep] + b, sep)[0] == a
  {
    SplitAt(a, b, sep);
    SplitNoSep(a, sep);
  }

  /** Text after the first separator does not change the first piece. */
  lemma {:induction false} SplitHeadAppend(a: string, t: string, sep: char)
    requires sep in a
    ensures Split(a + t, sep)[0] == Split(a, sep)[0]
    decreases |a|
  {
    assert (a + t)[0] == a[0];
    if a[0] != sep {
      assert (a + t)[1..] == a[1..] + t;
      SplitHeadAppend(a[1..], t, sep);
    }
  }

  /** Lines joined with a terminator after each one, as `print` or `f.write(... + "\n")` produce them. */
  function Unlines(ls: seq<string>): string {
    if ls == [] then [] else ls[0] + "\n" + Unlines(ls[1..])
  }

  predicate NoNewlines(ls: seq<string>) {
    forall i :: 0 <= i < |ls| ==> '\n' !in ls[i]
  }

  /** Terminated lines split back into themselves and one empty last piece. */
  lemma {:induction false} SplitUnlines(ls: seq<string>)
    requires NoNewlines(ls)
    ensures Split(Unlines(ls), '\n') == ls + [""]
    decreases |ls|
  {
    if ls != [] {
      SplitUnlines(ls[1..]);
      assert ls[0] + "\n" + Unlines(ls[1..]) == ls[0] + ['\n'] + Unlines(ls[1..]);
      SplitAt(ls[0], Unlines(ls[1..]), '\n');
      SplitNoSep(ls[0], '\n');
      assert ls == [ls[0]] + ls[1..];
    }
  }

  lemma {:induction false} UnlinesAppend(ls: seq<string>, l: string)
    ensures Unlines(ls + [l]) == Unlines(ls) + l + "\n"
    decreases |ls|
  {
    if ls != [] {
      assert (ls + [l])[1..] == ls[1..] + [l];
      UnlinesAppend(ls[1..], l);
    }
  }

  /** Lines joined with terminators, then more text: the lines come back first. */
  lemma {:induction false} SplitUnlinesThen(ls: seq<string>, t: string)
    requires NoNewlines(ls)
    ensures Split(Unlines(ls) + t, '\n') == ls + Split(t, '\n')
    decreases |ls|
  {
    if ls != [] {
      var u := Unlines(ls[1..]) + t;
      SplitUnlinesThen(ls[1..], t);
      assert Unlines(ls) == ls[0] + ['\n'] + Unlines(ls[1..]);
      assert Unlines(ls) + t == ls[0] + ['\n'] + u;
      SplitAt(ls[0], u, '\n');
      SplitNoSep(ls[0], '\n');
      var st := Split(t, '\n');
      assert Split(Unlines(ls) + t, '\n') == [ls[0]] + (ls[1..] + st);
      assert [ls[0]] + (ls[1..] + st) == ([ls[0]] + ls[1..]) + st;
      assert ls == [ls[0]] + ls[1..];
    } else {
      assert Unlines(ls) + t == t;
    }
  }

  /**
    f.readlines(): every line keeps its terminator, and a text that ends
    with a newline has no empty line after it.
   */
  function ReadLines(s: string): seq<string> {
    var p := Split(s, '\n');
    seq(|p| - 1, i requires 0 <= i < |p| - 1 => p[i] + "\n") + (if p[|p| - 1] == [] then [] else [p[|p| - 1]])
  }

  // ---------------------------------------------------------------------
  // str.split() with no argument
  // ---------------------------------------------------------------------

  /** The longest prefix of `s` without whitespace. */
  function Word(s: string): (w: string)
    ensures |w| <= |s| && w == s[..|w|] && NoSpace(w)
    ensures |w| < |s| ==> IsSpace(s[|w|])
  {
    if s == [] || IsSpace(s[0]) then [] else [s[0]] + Word(s[1..])
  }

  /** One blank on either side of a word is stripped away. */
  lemma StripPadded(t: string)
    requires t != [] && NoSpace(t)
    ensures Strip(" " + t) == t && Strip(t + " ") == t
  {
    assert (" " + t)[1..] == t;
    assert TrimLeft(t + " ") == t + " ";
    assert (t + " ")[..|t|] == t;
    assert TrimRight(t + " ") == TrimRight(t);
    StripNoSpace(t);
  }

  /** Python's s.split(): the maximal runs of non-whitespace characters. */
  function SplitWs(s: string): (r: seq<string>)
    ensures forall i :: 0 <= i < |r| ==> r[i] != [] && NoSpace(r[i])
    decreases |s|
  {
    if s == [] then []
    else if IsSpace(s[0]) then SplitWs(s[1..])
    else
      var w := Word(s);
      [w] + SplitWs(s[|w|..])
  }

  lemma {:induction false} WordOf(d: string, t: string)
    requires NoSpace(d)
    requires t == [] || IsSpace(t[0])
    ensures Word(d + t) == d
    decreases |d|
  {
    if d != [] {
      assert (d + t)[1..] == d[1..] + t;
      WordOf(d[1..], t);
    }
  }

  /** The first token of a line that starts with blanks and then a word. */
  lemma {:induction false} FirstToken(pad: string, d: string, t: string)
    requires forall i :: 0 <= i < |pad| ==> IsSpace(pad[i])
    requires d != [] && NoSpace(d)
    requires t == [] || IsSpace(t[0])
    ensures |SplitWs(pad + d + t)| >= 1 && SplitWs(pad + d + t)[0] == d
    decreases |pad|
  {
    if pad == [] {
      assert pad + d + t == d + t;
      WordOf(d, t);
    } else {
      assert (pad + d + t)[1..] == pad[1..] + d + t;
      FirstToken(pad[1..], d, t);
    }
  }

  /** A word followed by blanks is the first token; the tokens of the rest follow it. */
  lemma SplitWsWord(w: string, t: string)
    requires w != [] && NoSpace(w) && (t == [] || IsSpace(t[0]))
    ensures SplitWs(w + t) == [w] + SplitWs(t)
  {
    WordOf(w, t);
    assert (w + t)[|w|..] == t;
  }

  /** The second token of a line made of a word, blanks, a second word and then blanks or nothing. */
  lemma SecondToken(w: string, pad: string, d: string, t: string)
    requires w != [] && NoSpace(w)
    requires pad != [] && forall i :: 0 <= i < |pad| ==> IsSpace(pad[i])
    requires d != [] && NoSpace(d) && (t == [] || IsSpace(t[0]))
    ensures |SplitWs(w + pad + d + t)| >= 2 && SplitWs(w + pad + d + t)[1] == d
  {
    assert w + pad + d + t == w + (pad + d + t);
    SplitWsWord(w, pad + d + t);
    FirstToken(pad, d, t);
  }

  /** Leading blanks do not change the tokens. */
  lemma {:induction false} SplitWsBlanks(pad: string, t: string)
    requires Blank(pad)
    ensures SplitWs(pad + t) == SplitWs(t)
    decreases |pad|
  {
    if pad != [] {
      assert (pad + t)[0] == pad[0];
      assert (pad + t)[1..] == pad[1..] + t;
      SplitWsBlanks(pad[1..], t);
    } else {
      assert pad + t == t;
    }
  }

  /** n blanks; none for n <= 0. */
  function Spaces(n: int): (s: string)
    ensures |s| == if n < 0 then 0 else n
    ensures forall i :: 0 <= i < |s| ==> s[i] == ' '
  {
    if n <= 0 then [] else Spaces(n - 1) + " "
  }

  /** Python's format with a width and right alignment, as in "{:8d}": blanks in front up to the width. */
  function RightAlign(s: string, width: nat): (r: string)
    ensures |r| == if |s| < width then width else |s|
    ensures r[|r| - |s|..] == s && forall i :: 0 <= i < |r| - |s| ==> r[i] == ' '
  {
    Spaces(width - |s|) + s
  }

  /** A row of a whitespace-separated table: each cell is a gap of blanks and a word. */
  function Cells(cs: seq<(string, string)>): string {
    if cs == [] then [] else cs[0].0 + cs[0].1 + Cells(cs[1..])
  }

  function Words(cs: seq<(string, string)>): (ws: seq<string>)
    ensures |ws| == |cs|
  {
    seq(|cs|, i requires 0 <= i < |cs| => cs[i].1)
  }

  /** Blanks, a word, then blanks or nothing: the word is the next token. */
  lemma SplitWsField(pad: string, w: string, t: string)
    requires Blank(pad)
    requires w != [] && NoSpace(w) && (t == [] || IsSpace(t[0]))
    ensures SplitWs(pad + w + t) == [w] + SplitWs(t)
  {
    assert pad + w + t == pad + (w + t);
    SplitWsBlanks(pad, w + t);
    SplitWsWord(w, t);
  }

  /** A row whose first gap is not empty starts with a blank. */
  lemma CellsStart(cs: seq<(string, string)>, t: string)
    requires cs != [] && cs[0].0 != [] && IsSpace(cs[0].0[0])
    ensures (Cells(cs) + t)[0] == cs[0].0[0]
  {
    assert Cells(cs) == cs[0].0 + cs[0].1 + Cells(cs[1..]);
  }

  predicate Blank(s: string) {
    forall i :: 0 <= i < |s| ==> IsSpace(s[i])
  }

  /** Cells that make a row: blank gaps, every gap but the first non-empty, non-empty words without blanks. */
  predicate Row(cs: seq<(string, string)>) {
    forall i :: 0 <= i < |cs| ==>
      Blank(cs[i].0) && cs[i].1 != [] && NoSpace(cs[i].1) && (i > 0 ==> cs[i].0 != [])
  }

  lemma RowTail(cs: seq<(string, string)>)
    requires cs != [] && Row(cs)
    ensures Row(cs[1..])
  {
    var tail := cs[1..];
    forall i | 0 <= i < |tail| ensures Blank(tail[i].0) && tail[i].1 != [] && NoSpace(tail[i].1) && tail[i].0 != [] {
      assert tail[i] == cs[i + 1];
    }
  }

  lemma CellsFirst(cs: seq<(string, string)>, t: string)
    requires cs != []
    ensures Cells(cs) + t == cs[0].0 + cs[0].1 + (Cells(cs[1..]) + t)
    ensures Words(cs) == [cs[0].1] + Words(cs[1..])
  {
    assert Cells(cs) == cs[0].0 + cs[0].1 + Cells(cs[1..]);
  }

  /** A row reads back, with str.split(), as its words. */
  lemma {:induction false} SplitWsCells(cs: seq<(string, string)>, t: string)
    requires Row(cs) && (t == [] || IsSpace(t[0]))
    ensures SplitWs(Cells(cs) + t) == Words(cs) + SplitWs(t)
  {
    if cs != [] {
      var tail := cs[1..];
      RowTail(cs);
      SplitWsCells(tail, t);
      if tail != [] {
        CellsStart(tail, t);
      }
      CellsFirst(cs, t);
      SplitWsField(cs[0].0, cs[0].1, Cells(tail) + t);
    } else {
      assert Cells(cs) + t == t && Words(cs) + SplitWs(t) == SplitWs(t);
    }
  }

  /** The text of lines written one after another with f.write. */
  function Concat(ls: seq<string>): string {
    if ls == [] then [] else Concat(ls[..|ls| - 1]) + ls[|ls| - 1]
  }

  // ---------------------------------------------------------------------
  // Substrings, lower-casing and removal
  // ---------------------------------------------------------------------

  /** Python's `sub in s` for strings. */
  predicate HasSubstring(s: string, sub: string)
    decreases |s|
  {
    if |s| < |sub| then false else s[..|sub|] == sub || HasSubstring(s[1..], sub)
  }

  /** Python's str.lower() on ASCII letters; other characters are kept. */
  function Lower(s: string): (r: string)
    ensures |r| == |s|
  {
    if s == [] then []
    else [if 'A' <= s[0] <= 'Z' then (s[0] as int + 32) as char else s[0]] + Lower(s[1..])
  }

  /** Python's s.replace(pat, ""): every non-overlapping occurrence, left to right, removed. */
  function RemoveAll(s: string, pat: string): (r: string)
    requires pat != []
    ensures |r| <= |s|
    decreases |s|
  {
    if |s| < |pat| then s
    else if s[..|pat|] == pat then RemoveAll(s[|pat|..], pat)
    else [s[0]] + RemoveAll(s[1..], pat)
  }

  lemma {:induction false} RemoveAllAbsent(s: string, pat: string)
    requires pat != [] && pat[0] !in s
    ensures RemoveAll(s, pat) == s
    decreases |s|
  {
    if |s| >= |pat| {
      assert s[..|pat|][0] == s[0];
      RemoveAllAbsent(s[1..], pat);
    }
  }

  // ---------------------------------------------------------------------
  // Integers as decimal text: str(n) and int(s)
  // ---------------------------------------------------------------------

  predicate IsDigit(c: char) { '0' <= c <= '9' }

  predicate AllDigits(s: string) {
    forall i :: 0 <= i < |s| ==> IsDigit(s[i])
  }

  function DigitChar(d: nat): (c: char)
    requires d < 10
    ensures IsDigit(c)
  {
    ('0' as int + d) as char
  }

  /** str(n) for a non-negative integer. */
  function NatToDecimal(n: nat): (s: string)
    ensures s != [] && AllDigits(s)
  {
    if n < 10 then [DigitChar(n)] else NatToDecimal(n / 10) + [DigitChar(n % 10)]
  }

  /** str(i) for any integer. */
  function IntToDecimal(i: int): (s: string)
    ensures s != [] && NoSpace(s) && '\n' !in s && ',' !in s
  {
    var s := if i < 0 then "-" + NatToDecimal(-i) else NatToDecimal(i);
    assert forall k :: 0 <= k < |s| ==> s[k] == '-' || IsDigit(s[k]);
    s
  }

  function DigitsValue(s: string): nat
    requires AllDigits(s)
  {
    if s == [] then 0 else DigitsValue(s[..|s| - 1]) * 10 + (s[|s| - 1] as int - '0' as int)
  }

  /** Python's int(s): optional surrounding whitespace, an optional sign, then digits. */
  function ParseInt(s: string): (r: Option<int>)
  {
    ParseSigned(Strip(s))
  }

  /** An optional sign, then one or more digits. */
  function ParseSigned(t: string): (r: Option<int>)
  {
    if t != [] && (t[0] == '-' || t[0] == '+') then
      var ds := t[1..];
      if ds != [] && AllDigits(ds) then
        var v: int := DigitsValue(ds);
        Some(if t[0] == '-' then -v else v)
      else None
    else if t != [] && AllDigits(t) then Some(DigitsValue(t))
    else None
  }

  lemma {:induction false} DigitsValueOfDecimal(n: nat)
    ensures DigitsValue(NatToDecimal(n)) == n
  {
    if n >= 10 {
      DigitsValueOfDecimal(n / 10);
      var s := NatToDecimal(n);
      assert s[..|s| - 1] == NatToDecimal(n / 10);
    }
  }

  lemma ParseIntOfNat(n: nat)
    ensures ParseInt(NatToDecimal(n)) == Some(n)
  {
    var s := NatToDecimal(n);
    DigitsValueOfDecimal(n);
    ParseSignedDigits(s, n);
    StripNoSpace(s);
    ParseIntStripped(s);
  }

  lemma ParseSignedDigits(s: string, n: nat)
    requires s != [] && AllDigits(s) && DigitsValue(s) == n
    ensures ParseSigned(s) == Some(n)
  {
    assert IsDigit(s[0]);
  }

  lemma ParseSignedNegative(d: string)
    requires d != [] && AllDigits(d)
    ensures ParseSigned("-" + d) == Some(-(DigitsValue(d) as int))
  {
    assert ("-" + d)[1..] == d;
  }

  lemma StripDecimal(i: int)
    ensures Strip(IntToDecimal(i)) == IntToDecimal(i)
  {
    StripNoSpace(IntToDecimal(i));
  }

  lemma ParseIntOfNegative(i: int)
    requires i < 0
    ensures ParseInt(IntToDecimal(i)) == Some(i)
  {
    var x := IntToDecimal(i);
    NegativeDecimal(i);
    DigitsValueOfDecimal(-i);
    ParseSignedOfNegative(x, NatToDecimal(-i), i);
    StripDecimal(i);
    ParseIntStripped(x);
  }

  lemma NegativeDecimal(i: int)
    requires i < 0
    ensures IntToDecimal(i) == "-" + NatToDecimal(-i)
  {
  }

  lemma ParseSignedOfNegative(x: string, d: string, i: int)
    requires d != [] && AllDigits(d) && DigitsValue(d) == -i && x == "-" + d
    ensures ParseSigned(x) == Some(i)
  {
    ParseSignedNegative(d);
  }

  /** A string without surrounding blanks parses as its signed digits. */
  lemma ParseIntStripped(x: string)
    requires Strip(x) == x
    ensures ParseInt(x) == ParseSigned(x)
  {
  }

  /** An integer written after a word and blanks reads back as the second token. */
  lemma SecondTokenParses(w: string, pad: string, i: int, t: string)
    requires w != [] && NoSpace(w)
    requires pad != [] && forall k :: 0 <= k < |pad| ==> IsSpace(pad[k])
    requires t == [] || IsSpace(t[0])
    ensures |SplitWs(w + pad + IntToDecimal(i) + t)| >= 2 && ParseInt(SplitWs(w + pad + IntToDecimal(i) + t)[1]) == Some(i)
  {
    SecondToken(w, pad, IntToDecimal(i), t);
    ParseIntOfDecimal(i);
  }

  /** int(str(i)) == i. */
  lemma ParseIntOfDecimal(i: int)
    ensures ParseInt(IntToDecimal(i)) == Some(i)
  {
    if i < 0 {
      ParseIntOfNegative(i);
    } else {
      ParseIntOfNat(i);
    }
  }
}
