/** `TerminalRecorder.interpolate` (scripts/terminal_demo.py): one left-to-right
    `re.sub` pass of the pattern `\{\{\s*(\w+)\s*\}\}` over the text. */
module Interpolation {
  import opened Wrappers
  import opened Text

  /** `\w` restricted to ASCII: letters, digits and underscore. */
  predicate IsWordChar(c: char)
  {
    IsAlnum(c) || c == '_'
  }

  predicate IsWord(s: string)
  {
    forall i :: 0 <= i < |s| ==> IsWordChar(s[i])
  }

  /** Length of the longest prefix of whitespace (`\s*`). */
  function SpaceLen(s: string): (n: nat)
    ensures n <= |s|
  {
    if s != [] && IsSpace(s[0]) then 1 + SpaceLen(s[1..]) else 0
  }

  /** Length of the longest prefix of word characters (`\w*`). */
  function WordLen(s: string): (n: nat)
    ensures n <= |s|
  {
    if s != [] && IsWordChar(s[0]) then 1 + WordLen(s[1..]) else 0
  }

  /** A match of the placeholder pattern: the captured name and the length
      of the whole match. */
  datatype Placeholder = Placeholder(name: string, length: nat)

  /** The rest of a placeholder match after the opening "{{": spaces, a
      word, spaces and the closing "}}". The length counts from after "{{". */
  function MatchBody(t: string): (m: Option<Placeholder>)
    ensures m.Some? ==> 2 < m.value.length <= |t|
  {
    var a := SpaceLen(t);
    var w := WordLen(t[a..]);
    if w == 0 then None
    else
      var b := a + w + SpaceLen(t[a + w..]);
      if b + 2 <= |t| && t[b] == '}' && t[b + 1] == '}' then
        Some(Placeholder(t[a..a + w], b + 2))
      else None
  }

  /** The match of the placeholder pattern anchored at the start of `s`.
      Whitespace and word characters are disjoint, so the greedy runs are the
      only way the pattern can match and no backtracking is needed. */
  function MatchPlaceholder(s: string): (m: Option<Placeholder>)
    ensures m.Some? ==> 4 < m.value.length <= |s| && s[0] == '{' && s[1] == '{'
  {
    if |s| >= 2 && s[0] == '{' && s[1] == '{' then
      match MatchBody(s[2..])
      case Some(p) => Some(Placeholder(p.name, p.length + 2))
      case None => None
    else None
  }

  /** `replace_var`: the variable table first, then the process environment,
      else the matched text itself. */
  function Lookup(name: string, matched: string, variables: map<string, string>,
                  environ: map<string, string>): string
  {
    if name in variables then variables[name]
    else if name in environ then environ[name]
    else matched
  }

  /** The substitution pass: at each position either a placeholder match is
      replaced and scanning resumes after it, or one character is copied. */
  function Substitute(s: string, variables: map<string, string>, environ: map<string, string>): string
    decreases |s|
  {
    if s == [] then []
    else
      match MatchPlaceholder(s)
      case Some(p) => Lookup(p.name, s[..p.length], variables, environ) + Substitute(s[p.length..], variables, environ)
      case None => [s[0]] + Substitute(s[1..], variables, environ)
  }

  /** `interpolate(text)`: empty text is returned as is. */
  function Interpolate(text: string, variables: map<string, string>, environ: map<string, string>): string
  {
    if text == "" then text else Substitute(text, variables, environ)
  }

  predicate HasPlaceholder(s: string)
  {
    exists i :: 0 <= i < |s| && MatchPlaceholder(s[i..]).Some?
  }

  /** The placeholder text `{{<sp1><name><sp2>}}`. */
  function PlaceholderText(sp1: string, name: string, sp2: string): string
  {
    "{{" + sp1 + name + sp2 + "}}"
  }

  // ---------------------------------------------------------------------
  // Properties

  /** Text without any placeholder match is returned unchanged. */
  lemma {:induction false} InterpolateWithoutPlaceholder(s: string, variables: map<string, string>, environ: map<string, string>)
    requires !HasPlaceholder(s)
    ensures Interpolate(s, variables, environ) == s
  {
    SubstituteWithoutPlaceholder(s, variables, environ);
  }

  lemma {:induction false} SubstituteWithoutPlaceholder(s: string, variables: map<string, string>, environ: map<string, string>)
    requires !HasPlaceholder(s)
    ensures Substitute(s, variables, environ) == s
    decreases |s|
  {
    if s != [] {
      assert s[0..] == s;
      assert !HasPlaceholder(s[1..]) by {
        forall i | 0 <= i < |s[1..]| ensures MatchPlaceholder(s[1..][i..]).None? {
          assert s[1..][i..] == s[i + 1..];
        }
      }
      SubstituteWithoutPlaceholder(s[1..], variables, environ);
    }
  }

  lemma BracesAt(s: string, i: nat)
    requires i < |s| && MatchPlaceholder(s[i..]).Some?
    ensures Contains(s, "{{")
  {
    OpensWithBraces(s[i..]);
    assert i + 2 <= |s|;
    PairAt(s, i, '{');
    ContainsAt(s, "{{", i);
  }

  lemma OpensWithBraces(t: string)
    requires MatchPlaceholder(t).Some?
    ensures |t| >= 2 && t[0] == '{' && t[1] == '{'
  {
  }

  lemma PairAt(s: string, i: nat, c: char)
    requires i + 2 <= |s| && s[i..][0] == c && s[i..][1] == c
    ensures s[i..i + 2] == [c, c]
  {
    assert s[i..i + 2][0] == s[i..][0];
    assert s[i..i + 2][1] == s[i..][1];
  }

  /** Text that has no "{{" at all has no placeholder. */
  lemma NoBracesNoPlaceholder(s: string)
    requires !Contains(s, "{{")
    ensures !HasPlaceholder(s)
  {
    if HasPlaceholder(s) {
      var i :| 0 <= i < |s| && MatchPlaceholder(s[i..]).Some?;
      BracesAt(s, i);
    }
  }

  lemma {:induction false} SpaceLenBlankPrefix(sp: string, u: string)
    requires IsBlank(sp)
    ensures SpaceLen(sp + u) == |sp| + SpaceLen(u)
  {
    if sp != [] {
      assert (sp + u)[0] == sp[0] && (sp + u)[1..] == sp[1..] + u;
      SpaceLenBlankPrefix(sp[1..], u);
    } else {
      assert sp + u == u;
    }
  }

  lemma {:induction false} WordLenWordPrefix(w: string, u: string)
    requires IsWord(w)
    requires u != [] && !IsWordChar(u[0])
    ensures WordLen(w + u) == |w|
  {
    if w != [] {
      assert (w + u)[0] == w[0] && (w + u)[1..] == w[1..] + u;
      WordLenWordPrefix(w[1..], u);
    } else {
      assert w + u == u;
    }
  }

  lemma SpaceRunThen(sp: string, u: string)
    requires IsBlank(sp) && u != [] && !IsSpace(u[0])
    ensures SpaceLen(sp + u) == |sp|
  {
    SpaceLenBlankPrefix(sp, u);
  }

  /** The three greedy runs of the pattern, over `sp1 name sp2 "}}" rest`. */
  lemma BodyRuns(t: string, sp1: string, name: string, sp2: string, rest: string)
    requires IsBlank(sp1) && IsBlank(sp2) && |name| > 0 && IsWord(name)
    requires t == sp1 + name + sp2 + "}}" + rest
    ensures |sp1| + |name| + |sp2| + 2 <= |t|
    ensures SpaceLen(t) == |sp1|
    ensures WordLen(t[|sp1|..]) == |name|
    ensures SpaceLen(t[|sp1| + |name|..]) == |sp2|
  {
    var z := "}}" + rest;
    var y := sp2 + z;
    var x := name + y;
    Nested(sp1, name, sp2, z, rest);
    SpaceRunThen(sp1, x);
    WordThenSpaceRun(name, sp2, z);
    SpaceRunThen(sp2, z);
    Suffixes(t, sp1, x, name, y);
  }

  lemma Nested(sp1: string, name: string, sp2: string, z: string, rest: string)
    requires z == "}}" + rest
    ensures sp1 + name + sp2 + "}}" + rest == sp1 + (name + (sp2 + z))
  {
  }

  lemma WordThenSpaceRun(name: string, sp2: string, z: string)
    requires |name| > 0 && IsWord(name) && |z| > 0 && z[0] == '}'
    requires IsBlank(sp2)
    ensures (name + (sp2 + z))[0] == name[0] && !IsSpace(name[0])
    ensures WordLen(name + (sp2 + z)) == |name|
  {
    assert IsWordChar(name[0]);
    assert (sp2 + z)[0] == (if sp2 != [] then sp2[0] else z[0]);
    assert sp2 != [] ==> IsSpace(sp2[0]);
    assert !IsWordChar((sp2 + z)[0]);
    WordLenWordPrefix(name, sp2 + z);
  }

  lemma Suffixes(t: string, sp1: string, x: string, name: string, y: string)
    requires t == sp1 + x && x == name + y
    ensures t[|sp1|..] == x && t[|sp1| + |name|..] == y
  {
    assert t[|sp1|..] == x;
    assert t[|sp1| + |name|..] == x[|name|..];
  }

  lemma BodyPieces(t: string, sp1: string, name: string, sp2: string, rest: string)
    requires t == sp1 + name + sp2 + "}}" + rest
    ensures t[|sp1|..|sp1| + |name|] == name
    ensures t[|sp1| + |name| + |sp2|] == '}' && t[|sp1| + |name| + |sp2| + 1] == '}'
  {
    var b := |sp1| + |name| + |sp2|;
    assert t[b..] == "}}" + rest;
  }

  lemma BodyMatched(t: string, sp1: string, name: string, sp2: string, rest: string)
    requires IsBlank(sp1) && IsBlank(sp2) && |name| > 0 && IsWord(name)
    requires t == sp1 + name + sp2 + "}}" + rest
    ensures MatchBody(t) == Some(Placeholder(name, |sp1| + |name| + |sp2| + 2))
  {
    BodyRuns(t, sp1, name, sp2, rest);
    BodyPieces(t, sp1, name, sp2, rest);
  }

  /** A placeholder at the front is replaced by the variable's value if bound,
      else by the environment's value, else kept verbatim; the rest of the
      text is then scanned on its own, so the inserted value is never
      scanned again. */
  lemma PlaceholderReplaced(sp1: string, name: string, sp2: string, rest: string,
                            variables: map<string, string>, environ: map<string, string>)
    requires IsBlank(sp1) && IsBlank(sp2) && |name| > 0 && IsWord(name)
    ensures Substitute(PlaceholderText(sp1, name, sp2) + rest, variables, environ)
         == (if name in variables then variables[name]
             else if name in environ then environ[name]
             else PlaceholderText(sp1, name, sp2))
            + Substitute(rest, variables, environ)
  {
    var p := PlaceholderText(sp1, name, sp2);
    var s := p + rest;
    PlaceholderSplit(sp1, name, sp2, rest);
    BodyMatched(s[2..], sp1, name, sp2, rest);
    assert s[0] == s[..2][0] == '{' && s[1] == s[..2][1] == '{';
    assert MatchBody(s[2..]) == Some(Placeholder(name, |p| - 2));
    assert MatchPlaceholder(s) == Some(Placeholder(name, |p|));
    SubstituteAtMatch(s, Placeholder(name, |p|), variables, environ);
    assert s[..|p|] == p && s[|p|..] == rest;
  }

  /** Where a placeholder matches, its replacement comes first and the
      scan resumes after it. */
  lemma SubstituteAtMatch(s: string, m: Placeholder, variables: map<string, string>, environ: map<string, string>)
    requires MatchPlaceholder(s) == Some(m)
    ensures Substitute(s, variables, environ)
         == Lookup(m.name, s[..m.length], variables, environ) + Substitute(s[m.length..], variables, environ)
  {
  }

  lemma PlaceholderSplit(sp1: string, name: string, sp2: string, rest: string)
    ensures var p := PlaceholderText(sp1, name, sp2);
      && |p| == |sp1| + |name| + |sp2| + 4
      && (p + rest)[..2] == "{{"
      && (p + rest)[2..] == sp1 + name + sp2 + "}}" + rest
      && (p + rest)[..|p|] == p && (p + rest)[|p|..] == rest
  {
    var p := PlaceholderText(sp1, name, sp2);
    assert (p + rest)[2..] == p[2..] + rest;
    assert p[2..] == sp1 + name + sp2 + "}}";
  }

  /** The substituted value is inserted verbatim, whatever it holds: a
      value that itself looks like a placeholder of a known variable is
      not substituted again. */
  lemma ValueNotRescanned(name: string, variables: map<string, string>, environ: map<string, string>)
    requires |name| > 0 && IsWord(name) && name in variables
    ensures Interpolate(PlaceholderText("", name, ""), variables, environ) == variables[name]
  {
    var p := PlaceholderText("", name, "");
    PlaceholderReplaced("", name, "", "", variables, environ);
    assert p + "" == p && p != "";
    assert variables[name] + "" == variables[name];
  }

  /** Interpolating again changes nothing once no placeholder is left. */
  lemma InterpolateIdempotent(s: string, variables: map<string, string>, environ: map<string, string>)
    requires !HasPlaceholder(Interpolate(s, variables, environ))
    ensures Interpolate(Interpolate(s, variables, environ), variables, environ) == Interpolate(s, variables, environ)
  {
    InterpolateWithoutPlaceholder(Interpolate(s, variables, environ), variables, environ);
  }
}
