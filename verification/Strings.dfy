/** The string operations that paths, references and Redis keys are built from:
    joining and splitting on a separator, single-character replacement, ASCII
    upper-casing, and decimal integers. */
module Strings {
  import opened Wrappers

  // ----- join and split ----------------------------------------------------

  /** `sep.join(parts)` */
  function Join(parts: seq<string>, sep: char): string {
    if |parts| == 0 then ""
    else if |parts| == 1 then parts[0]
    else parts[0] + [sep] + Join(parts[1..], sep)
  }

  /** The index of the first `sep` in `s`, or `|s|`. */
  function IndexOf(s: string, sep: char): (i: nat)
    ensures i <= |s|
    ensures sep !in s[..i]
    ensures i < |s| ==> s[i] == sep
  {
    if s == "" || s[0] == sep then 0 else 1 + IndexOf(s[1..], sep)
  }

  /** `[p for p in s.split(sep) if p]` */
  function SplitNonEmpty(s: string, sep: char): (parts: seq<string>)
    ensures forall p | p in parts :: p != "" && sep !in p
    decreases |s|
  {
    var i := IndexOf(s, sep);
    var head := if i == 0 then [] else [s[..i]];
    if i == |s| then head else head + SplitNonEmpty(s[i + 1..], sep)
  }

  /** The index of the separator is where a separator-free prefix ends. */
  lemma {:induction false} IndexOfPrefix(p: string, rest: string, sep: char)
    requires sep !in p
    ensures IndexOf(p + [sep] + rest, sep) == |p|
    ensures IndexOf(p, sep) == |p|
  {
    if p != "" {
      assert p[0] in p;
      IndexOfPrefix(p[1..], rest, sep);
      assert (p + [sep] + rest)[1..] == p[1..] + [sep] + rest;
    }
  }

  /** Splitting undoes joining: non-empty, separator-free parts come back unchanged. */
  lemma {:induction false} SplitJoin(parts: seq<string>, sep: char)
    requires forall p | p in parts :: p != "" && sep !in p
    ensures SplitNonEmpty(Join(parts, sep), sep) == parts
  {
    if |parts| == 0 {
    } else if |parts| == 1 {
      assert parts[0] in parts;
      IndexOfPrefix(parts[0], "", sep);
      assert parts[0][..|parts[0]|] == parts[0];
    } else {
      var p, s := parts[0], Join(parts, sep);
      assert p in parts;
      var rest := Join(parts[1..], sep);
      IndexOfPrefix(p, rest, sep);
      assert s[..|p|] == p && s[|p| + 1..] == rest;
      assert forall q | q in parts[1..] :: q in parts;
      SplitJoin(parts[1..], sep);
    }
  }

  /** A leading separator adds no part. */
  lemma SplitLeading(s: string, sep: char)
    ensures SplitNonEmpty([sep] + s, sep) == SplitNonEmpty(s, sep)
  {
    assert ([sep] + s)[1..] == s;
  }

  // ----- characters --------------------------------------------------------

  /** `s.replace(a, b)` for single characters. */
  function Replace(s: string, a: char, b: char): (r: string)
    ensures |r| == |s|
    ensures forall i | 0 <= i < |s| :: r[i] == if s[i] == a then b else s[i]
  {
    seq(|s|, i requires 0 <= i < |s| => if s[i] == a then b else s[i])
  }

  /** Replacing back restores a string that did not contain the replacement. */
  lemma ReplaceBack(s: string, a: char, b: char)
    requires b !in s
    ensures Replace(Replace(s, a, b), b, a) == s
  {
  }

  function UpperChar(c: char): char {
    if 'a' <= c <= 'z' then c - 'a' + 'A' else c
  }

  /** `s.upper()` on ASCII. */
  function Upper(s: string): (r: string)
    ensures |r| == |s|
    ensures forall i | 0 <= i < |s| :: r[i] == UpperChar(s[i])
  {
    seq(|s|, i requires 0 <= i < |s| => UpperChar(s[i]))
  }

  predicate IsUpperLetter(c: char) { 'A' <= c <= 'Z' }

  predicate IsDigit(c: char) { '0' <= c <= '9' }

  predicate AllDigits(s: string) { s != "" && forall c | c in s :: IsDigit(c) }

  lemma UpperFixed(s: string)
    requires forall c | c in s :: !('a' <= c <= 'z')
    ensures Upper(s) == s
  {
    assert forall i | 0 <= i < |s| :: s[i] in s;
  }

  // ----- decimal integers --------------------------------------------------

  function DigitChar(d: nat): char
    requires d < 10
  {
    '0' + d as char
  }

  function DigitValue(c: char): nat
    requires IsDigit(c)
  {
    (c - '0') as nat
  }

  function NatToString(n: nat): (s: string)
    ensures AllDigits(s)
  {
    if n < 10 then [DigitChar(n)] else NatToString(n / 10) + [DigitChar(n % 10)]
  }

  function NatValue(s: string): nat
    requires AllDigits(s)
  {
    var d := DigitValue(s[|s| - 1]);
    if |s| == 1 then d
    else
      assert forall c | c in s[..|s| - 1] :: c in s;
      10 * NatValue(s[..|s| - 1]) + d
  }

  /** `str(n)` */
  function IntToString(n: int): (s: string)
    ensures s != ""
    ensures forall c | c in s :: IsDigit(c) || c == '-'
  {
    if n < 0 then "-" + NatToString(-n) else NatToString(n)
  }

  /** `int(s)` on an optional sign followed by decimal digits. */
  function ParseInt(s: string): Option<int>
  {
    if AllDigits(s) then Some(NatValue(s))
    else if s != "" && s[0] == '-' && AllDigits(s[1..]) then Some(-(NatValue(s[1..]) as int))
    else if s != "" && s[0] == '+' && AllDigits(s[1..]) then Some(NatValue(s[1..]))
    else None
  }

  lemma {:induction false} NatValueOfString(n: nat)
    ensures NatValue(NatToString(n)) == n
  {
    var s := NatToString(n);
    if n >= 10 {
      assert s[..|s| - 1] == NatToString(n / 10);
      NatValueOfString(n / 10);
    }
  }

  /** Reading back a printed integer gives the integer, negative ones included. */
  lemma ParseIntOfString(n: int)
    ensures ParseInt(IntToString(n)) == Some(n)
  {
    if n < 0 {
      NatValueOfString(-n);
      var s := IntToString(n);
      assert s[0] == '-' && s[0] in s && !IsDigit(s[0]);
      assert s[1..] == NatToString(-n);
    } else {
      NatValueOfString(n);
    }
  }

  lemma {:induction false} JoinSnoc(ss: seq<string>, x: string, sep: char)
    requires ss != []
    ensures Join(ss + [x], sep) == Join(ss, sep) + [sep] + x
  {
    var all := ss + [x];
    if |ss| == 1 {
      assert all[1..] == [x] && Join([x], sep) == x;
    } else {
      JoinSnoc(ss[1..], x, sep);
      assert all[1..] == ss[1..] + [x];
    }
  }
}
