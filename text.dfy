/** String helpers with Python's semantics: str.isspace/strip, str.split with
    a one-character separator, str.join, slicing, `in`, rfind, and decimal
    rendering of integers (`str(n)`, `f"{n:02d}"`). */
module Text {

  /** The characters for which Python's str.isspace() holds. */
  predicate IsSpace(c: char)
  {
    ('\t' <= c <= '\r') || ('\U{1C}' <= c <= ' ') || c == '\U{85}' || c == '\U{A0}'
    || c == '\U{1680}' || ('\U{2000}' <= c <= '\U{200A}') || c == '\U{2028}'
    || c == '\U{2029}' || c == '\U{202F}' || c == '\U{205F}' || c == '\U{3000}'
  }

  /** `not s.strip()`: the string holds whitespace only. */
  predicate IsBlank(s: string)
  {
    forall i :: 0 <= i < |s| ==> IsSpace(s[i])
  }

  /** `s.lstrip()` */
  function StripLeft(s: string): string
  {
    if s == [] || !IsSpace(s[0]) then s else StripLeft(s[1..])
  }

  /** `s.rstrip()` */
  function StripRight(s: string): string
  {
    if s == [] || !IsSpace(s[|s| - 1]) then s else StripRight(s[..|s| - 1])
  }

  /** `s.strip()` */
  function Strip(s: string): string
  {
    StripRight(StripLeft(s))
  }

  /** lstrip removes exactly the leading whitespace: what is left is a
      suffix that does not start with whitespace, what was removed is
      blank, and nothing is left exactly when the string is blank. */
  lemma {:induction false} StripLeftSpec(s: string)
    ensures var r := StripLeft(s);
      && |r| <= |s| && r == s[|s| - |r|..]
      && (r == [] || !IsSpace(r[0]))
      && IsBlank(s[..|s| - |r|])
      && (r == [] <==> IsBlank(s))
  {
    if s != [] && IsSpace(s[0]) {
      StripLeftSpec(s[1..]);
      var r := StripLeft(s[1..]);
      assert s[..|s| - |r|] == [s[0]] + s[1..][..|s| - 1 - |r|];
      assert IsBlank(s[1..]) ==> IsBlank(s) by {
        if IsBlank(s[1..]) {
          forall i | 0 <= i < |s| ensures IsSpace(s[i]) { if i > 0 { assert s[i] == s[1..][i - 1]; } }
        }
      }
    }
  }

  /** rstrip, symmetrically. */
  lemma {:induction false} StripRightSpec(s: string)
    ensures var r := StripRight(s);
      && |r| <= |s| && r == s[..|r|]
      && (r == [] || !IsSpace(r[|r| - 1]))
      && IsBlank(s[|r|..])
      && (r == [] <==> IsBlank(s))
  {
    if s != [] && IsSpace(s[|s| - 1]) {
      StripRightSpec(s[..|s| - 1]);
      var r := StripRight(s[..|s| - 1]);
      assert s[|r|..] == s[..|s| - 1][|r|..] + [s[|s| - 1]];
      assert IsBlank(s[..|s| - 1]) ==> IsBlank(s) by {
        if IsBlank(s[..|s| - 1]) {
          forall i | 0 <= i < |s| ensures IsSpace(s[i]) { if i < |s| - 1 { assert s[i] == s[..|s| - 1][i]; } }
        }
      }
    }
  }

  /** `not s.strip()` and `s.isspace() or s == ""` agree. */
  lemma StripBlank(s: string)
    ensures Strip(s) == [] <==> IsBlank(s)
  {
    StripLeftSpec(s);
    var l := StripLeft(s);
    StripRightSpec(l);
    assert l != [] ==> !IsBlank(l) by {
      if l != [] { assert !IsSpace(l[0]); }
    }
  }

  /** `s[:n]` for n >= 0 */
  function Take(s: string, n: nat): (r: string)
    ensures |r| <= n && |r| <= |s| && r == s[..|r|]
    ensures |s| <= n ==> r == s
    ensures n <= |s| ==> |r| == n
  {
    if |s| <= n then s else s[..n]
  }

  function Concat(ss: seq<string>): string
  {
    if ss == [] then [] else ss[0] + Concat(ss[1..])
  }

  lemma {:induction false} ConcatAppend(ss: seq<string>, t: string)
    ensures Concat(ss + [t]) == Concat(ss) + t
  {
    if ss != [] {
      assert (ss + [t])[1..] == ss[1..] + [t];
      ConcatAppend(ss[1..], t);
    }
  }

  // ---------------------------------------------------------------------
  // Splitting and joining

  /** `s.split(sep)` for a one-character separator: never empty, and no
      piece contains the separator. */
  function Split(s: string, sep: char): (r: seq<string>)
    ensures |r| >= 1
    ensures forall i :: 0 <= i < |r| ==> sep !in r[i]
  {
    if s == [] then [""]
    else
      var rest := Split(s[1..], sep);
      if s[0] == sep then [""] + rest
      else [[s[0]] + rest[0]] + rest[1..]
  }

  /** `sep.join(ps)` */
  function Join(ps: seq<string>, sep: char): string
  {
    if ps == [] then ""
    else if |ps| == 1 then ps[0]
    else ps[0] + [sep] + Join(ps[1..], sep)
  }

  lemma {:induction false} JoinSplit(s: string, sep: char)
    ensures Join(Split(s, sep), sep) == s
  {
    if s != [] {
      var rest := Split(s[1..], sep);
      JoinSplit(s[1..], sep);
      if s[0] != sep {
        if |rest| == 1 {
        } else {
          assert Join(rest, sep) == rest[0] + [sep] + Join(rest[1..], sep);
        }
      }
    }
  }

  lemma {:induction false} SplitPrefix(p: string, t: string, sep: char)
    requires sep !in p
    ensures Split(p + t, sep) == [p + Split(t, sep)[0]] + Split(t, sep)[1..]
  {
    var st := Split(t, sep);
    if p != [] {
      assert p + t == [p[0]] + (p[1..] + t);
      assert p[0] in p;
      assert forall x :: x in p[1..] ==> x in p;
      SplitCons(p[0], p[1..] + t, sep);
      SplitPrefix(p[1..], t, sep);
      assert [p[0]] + (p[1..] + st[0]) == p + st[0];
    } else {
      assert p + t == t && p + st[0] == st[0];
      assert st == [st[0]] + st[1..];
    }
  }

  /** A character other than the separator joins the first piece. */
  lemma SplitCons(c: char, u: string, sep: char)
    requires c != sep
    ensures Split([c] + u, sep) == [[c] + Split(u, sep)[0]] + Split(u, sep)[1..]
  {
    var s := [c] + u;
    assert s[1..] == u && s[0] == c && s != [];
  }

  lemma SplitSep(t: string, sep: char)
    ensures Split([sep] + t, sep) == [""] + Split(t, sep)
  {
    var s := [sep] + t;
    assert s[1..] == t && s[0] == sep && s != [];
    assert Split(s, sep) == [""] + Split(s[1..], sep);
  }

  lemma {:induction false} SplitJoin(ps: seq<string>, sep: char)
    requires |ps| >= 1
    requires forall i :: 0 <= i < |ps| ==> sep !in ps[i]
    ensures Split(Join(ps, sep), sep) == ps
  {
    if |ps| == 1 {
      SplitPrefix(ps[0], "", sep);
      assert ps[0] + "" == ps[0];
      assert Split(ps[0], sep) == [ps[0] + ""] + [];
    } else {
      var t := Join(ps[1..], sep);
      SplitJoin(ps[1..], sep);
      assert Join(ps, sep) == ps[0] + ([sep] + t);
      SplitPrefix(ps[0], [sep] + t, sep);
      SplitSep(t, sep);
      assert ps[0] + "" == ps[0];
      assert ps == [ps[0]] + ps[1..];
    }
  }

  /** The text of a file written line by line, each line followed by "\n". */
  function ConcatLines(ls: seq<string>): string
  {
    if ls == [] then "" else ls[0] + "\n" + ConcatLines(ls[1..])
  }

  lemma {:induction false} ConcatLinesJoin(ls: seq<string>)
    ensures ConcatLines(ls) == Join(ls + [""], '\n')
  {
    if ls != [] {
      ConcatLinesJoin(ls[1..]);
      assert (ls + [""])[1..] == ls[1..] + [""];
    }
  }

  /** Reading back a file written line by line gives its lines, then the
      empty remainder after the last newline. */
  lemma SplitConcatLines(ls: seq<string>)
    requires forall i :: 0 <= i < |ls| ==> '\n' !in ls[i]
    ensures Split(ConcatLines(ls), '\n') == ls + [""]
  {
    ConcatLinesJoin(ls);
    SplitJoin(ls + [""], '\n');
  }

  lemma {:induction false} ConcatLinesAppend(ls: seq<string>, l: string)
    ensures ConcatLines(ls + [l]) == ConcatLines(ls) + l + "\n"
  {
    if ls != [] {
      assert (ls + [l])[1..] == ls[1..] + [l];
      ConcatLinesAppend(ls[1..], l);
    }
  }

  // ---------------------------------------------------------------------
  // Searching

  predicate StartsWith(s: string, p: string)
  {
    |p| <= |s| && s[..|p|] == p
  }

  /** Python's `n in h` for strings. */
  predicate Contains(h: string, n: string)
    decreases |h|
  {
    StartsWith(h, n) || (|h| > 0 && Contains(h[1..], n))
  }

  lemma {:induction false} ContainsAt(h: string, n: string, i: nat)
    requires i + |n| <= |h| && h[i..i + |n|] == n
    ensures Contains(h, n)
  {
    if i > 0 {
      assert h[1..][i - 1..i - 1 + |n|] == h[i..i + |n|];
      ContainsAt(h[1..], n, i - 1);
    }
  }

  lemma {:induction false} ContainsInfix(a: string, b: string, c: string, n: string)
    requires Contains(b, n)
    ensures Contains(a + b + c, n)
    decreases |b|
  {
    if StartsWith(b, n) {
      var h := a + b + c;
      assert h[|a|..|a| + |n|] == b[..|n|];
      ContainsAt(h, n, |a|);
    } else {
      assert a + b + c == (a + [b[0]]) + b[1..] + c;
      ContainsInfix(a + [b[0]], b[1..], c, n);
    }
  }

  /** `h.rfind(n)`: the last index where `n` occurs, or -1. */
  function RFind(h: string, n: string): (r: int)
    ensures r == -1 || 0 <= r <= |h| - |n|
    ensures r >= 0 ==> StartsWith(h[r..], n)
    ensures forall j :: r < j <= |h| - |n| ==> !StartsWith(h[j..], n)
  {
    RFindFrom(h, n, |h| - |n|)
  }

  function RFindFrom(h: string, n: string, i: int): (r: int)
    requires i <= |h| - |n|
    ensures r == -1 || 0 <= r <= i
    ensures r >= 0 ==> StartsWith(h[r..], n)
    ensures forall j :: r < j <= i ==> !StartsWith(h[j..], n)
    decreases i + 1
  {
    if i < 0 then -1
    else if StartsWith(h[i..], n) then i
    else RFindFrom(h, n, i - 1)
  }

  // ---------------------------------------------------------------------
  // Character classes (ASCII)

  predicate IsDigit(c: char) { '0' <= c <= '9' }
  predicate IsUpper(c: char) { 'A' <= c <= 'Z' }
  predicate IsLower(c: char) { 'a' <= c <= 'z' }
  predicate IsAlpha(c: char) { IsUpper(c) || IsLower(c) }
  predicate IsAlnum(c: char) { IsAlpha(c) || IsDigit(c) }

  function LowerChar(c: char): char
  {
    if IsUpper(c) then c - 'A' + 'a' else c
  }

  function UpperChar(c: char): char
  {
    if IsLower(c) then c - 'a' + 'A' else c
  }

  /** `s.lower()` */
  function Lower(s: string): (r: string)
    ensures |r| == |s|
  {
    seq(|s|, i requires 0 <= i < |s| => LowerChar(s[i]))
  }

  lemma LowerConcat(a: string, b: string)
    ensures Lower(a + b) == Lower(a) + Lower(b)
  {
  }

  /** `s.upper()` */
  function Upper(s: string): (r: string)
    ensures |r| == |s|
  {
    seq(|s|, i requires 0 <= i < |s| => UpperChar(s[i]))
  }

  /** Replaces every occurrence of the character `c` by the string `repl`
      (`s.replace(c, repl)` for a one-character `c`). */
  function ReplaceChar(s: string, c: char, repl: string): (r: string)
    ensures c !in repl ==> c !in r
    ensures |repl| == 1 ==> |r| == |s|
  {
    if s == [] then []
    else (if s[0] == c then repl else [s[0]]) + ReplaceChar(s[1..], c, repl)
  }

  // ---------------------------------------------------------------------
  // Decimal numbers

  predicate AllDigits(s: string)
  {
    forall i :: 0 <= i < |s| ==> IsDigit(s[i])
  }

  /** A string of digits holds no other character. */
  lemma DigitsWithout(s: string, c: char)
    requires AllDigits(s) && !IsDigit(c)
    ensures c !in s
  {
    forall i | 0 <= i < |s|
      ensures s[i] != c
    {
      assert IsDigit(s[i]);
    }
  }

  function DigitChar(d: nat): (c: char)
    requires d < 10
    ensures IsDigit(c)
  {
    '0' + (d as char)
  }

  /** The value of a string of decimal digits; leading zeros are allowed. */
  function DigitsValue(s: string): nat
    requires AllDigits(s)
  {
    if s == [] then 0
    else DigitsValue(s[..|s| - 1]) * 10 + (s[|s| - 1] - '0') as nat
  }

  /** `str(n)` for n >= 0 */
  function NatToString(n: nat): (r: string)
    ensures |r| >= 1 && AllDigits(r)
  {
    if n < 10 then [DigitChar(n)] else NatToString(n / 10) + [DigitChar(n % 10)]
  }

  /** `str(i)` */
  function IntToString(i: int): string
  {
    if i < 0 then "-" + NatToString(-i) else NatToString(i)
  }

  lemma {:induction false} NatToStringValue(n: nat)
    ensures DigitsValue(NatToString(n)) == n
  {
    if n >= 10 {
      var s := NatToString(n);
      assert s[..|s| - 1] == NatToString(n / 10);
      NatToStringValue(n / 10);
    }
  }

  function Zeros(k: nat): (r: string)
    ensures |r| == k && AllDigits(r)
  {
    seq(k, i => '0')
  }

  /** `f"{n:0{width}d}"` for n >= 0 */
  function PadZero(n: nat, width: nat): (r: string)
    ensures AllDigits(r)
  {
    var s := NatToString(n);
    if |s| < width then Zeros(width - |s|) + s else s
  }

  lemma {:induction false} DigitsValueZerosPrefix(k: nat, s: string)
    requires AllDigits(s)
    ensures DigitsValue(Zeros(k) + s) == DigitsValue(s)
    decreases |s|, k
  {
    if s == [] {
      assert Zeros(k) + s == Zeros(k);
      if k > 0 {
        assert Zeros(k)[..k - 1] == Zeros(k - 1) + [];
        DigitsValueZerosPrefix(k - 1, []);
      }
    } else {
      var t := Zeros(k) + s;
      assert t[..|t| - 1] == Zeros(k) + s[..|s| - 1];
      DigitsValueZerosPrefix(k, s[..|s| - 1]);
    }
  }

  /** Zero padding changes neither the value nor, beyond the padding, the length. */
  lemma PadZeroValue(n: nat, width: nat)
    ensures DigitsValue(PadZero(n, width)) == n
    ensures |PadZero(n, width)| >= width
    ensures n < 10 ==> |PadZero(n, width)| == if width < 1 then 1 else width
  {
    NatToStringValue(n);
    if |NatToString(n)| < width {
      DigitsValueZerosPrefix(width - |NatToString(n)|, NatToString(n));
    }
  }

  lemma {:induction false} NatToStringLength(n: nat, k: nat)
    requires n < Pow10(k) && k >= 1
    ensures |NatToString(n)| <= k
  {
    if n >= 10 {
      assert Pow10(1) == 10;
      assert n / 10 < Pow10(k - 1);
      NatToStringLength(n / 10, k - 1);
    }
  }

  function Pow10(k: nat): (r: nat)
    ensures r >= 1
  {
    if k == 0 then 1 else 10 * Pow10(k - 1)
  }

  /** A value below 10^width is padded to exactly `width` digits. */
  lemma PadZeroLength(n: nat, width: nat)
    requires width >= 1 && n < Pow10(width)
    ensures |PadZero(n, width)| == width
  {
    NatToStringLength(n, width);
  }
}
