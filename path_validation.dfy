/** `TerminalRecorder.validate_path` (scripts/terminal_demo.py) over POSIX
    paths. A path is read as its '/'-separated parts; `os.path.abspath`
    resolves them onto the working directory the way `os.path.normpath`
    does: empty parts and "." vanish, ".." drops the last component and
    stays at the root. The one exception is the root itself: POSIX keeps a
    leading "//" (exactly two slashes), so a normalised path starts with
    "/" or with "//", and the model carries which one. */
module PathValidation {
  import opened Wrappers
  import opened Text

  /** A component of a normalised absolute path. */
  predicate IsNormalPart(c: string)
  {
    c != "" && c != "." && c != ".." && '/' !in c
  }

  predicate IsNormal(cs: seq<string>)
  {
    forall i :: 0 <= i < |cs| ==> IsNormalPart(cs[i])
  }

  predicate NoSlash(parts: seq<string>)
  {
    forall i :: 0 <= i < |parts| ==> '/' !in parts[i]
  }

  function Step(stack: seq<string>, part: string): seq<string>
  {
    if part == "" || part == "." then stack
    else if part == ".." then (if stack == [] then [] else stack[..|stack| - 1])
    else stack + [part]
  }

  /** Resolves `parts` one by one onto the absolute directory `stack`. */
  function Resolve(stack: seq<string>, parts: seq<string>): seq<string>
    decreases |parts|
  {
    if parts == [] then stack else Resolve(Step(stack, parts[0]), parts[1..])
  }

  predicate IsAbs(p: string)
  {
    |p| > 0 && p[0] == '/'
  }

  /** The path starts with exactly two slashes, which `os.path.normpath`
      keeps ("///" and more collapse to "/"). */
  predicate DoubleRoot(p: string)
  {
    |p| >= 2 && p[0] == '/' && p[1] == '/' && (|p| == 2 || p[2] != '/')
  }

  /** Whether `os.path.abspath(p)` starts with "//": a relative path is
      joined onto `cwd` first and so takes its root from it. */
  predicate AbsDoubleRoot(p: string, cwd: string)
  {
    if IsAbs(p) then DoubleRoot(p) else DoubleRoot(cwd)
  }

  /** `os.path.abspath(p)` as components, `cwd` being the process's working
      directory. */
  function AbsPath(p: string, cwd: string): seq<string>
  {
    if IsAbs(p) then Resolve([], Split(p, '/'))
    else Resolve(Resolve([], Split(cwd, '/')), Split(p, '/'))
  }

  /** The string of an absolute path given by its root and components. */
  function Render(double: bool, cs: seq<string>): string
  {
    (if double then "//" else "/") + Join(cs, '/')
  }

  function TraversalMessage(path: string, resolved: string, base: string): string
  {
    "Path traversal detected: '" + path + "' resolves to '" + resolved
    + "' which is outside base directory '" + base + "'"
  }

  /** `validate_path(path, base_dir)`: an absolute path is returned
      normalised; a relative path is resolved against `base_dir` (or the
      current directory) and must stay inside it. `os.path.commonpath` of two
      normalised absolute paths is rendered with a single leading slash and
      the common components: it equals the base exactly when the base has a
      single slash and its components are a prefix of the resolved path's,
      so a base starting with "//" rejects every relative path. */
  function ValidatePath(path: string, baseDir: Option<string>, currentCwd: string, processCwd: string): Result<string, string>
  {
    var base := if baseDir.Some? && baseDir.value != "" then baseDir.value else currentCwd;
    var resolvedBase := AbsPath(base, processCwd);
    var double := AbsDoubleRoot(base, processCwd);
    if IsAbs(path) then Success(Render(DoubleRoot(path), Resolve([], Split(path, '/'))))
    else
      var resolved := Resolve(resolvedBase, Split(path, '/'));
      if !double && resolvedBase <= resolved then Success(Render(double, resolved))
      else Failure(TraversalMessage(path, Render(double, resolved), Render(double, resolvedBase)))
  }

  /** `validate_path` as written: the traversal ValueError is raised inside
      the `try` whose handler swallows any ValueError whose text mentions
      "different drives", so the check is skipped when the path itself
      contains those words. */
  function ValidatePathAsWritten(path: string, baseDir: Option<string>, currentCwd: string, processCwd: string): Result<string, string>
  {
    var base := if baseDir.Some? && baseDir.value != "" then baseDir.value else currentCwd;
    var resolvedBase := AbsPath(base, processCwd);
    var double := AbsDoubleRoot(base, processCwd);
    if IsAbs(path) then Success(Render(DoubleRoot(path), Resolve([], Split(path, '/'))))
    else
      var resolved := Resolve(resolvedBase, Split(path, '/'));
      if !double && resolvedBase <= resolved then Success(Render(double, resolved))
      else
        var msg := TraversalMessage(path, Render(double, resolved), Render(double, resolvedBase));
        if Contains(Lower(msg), "different drives") then Success(Render(double, resolved))
        else Failure(msg)
  }

  // ---------------------------------------------------------------------
  // Properties

  lemma {:induction false} ResolveNormal(stack: seq<string>, parts: seq<string>)
    requires IsNormal(stack) && NoSlash(parts)
    ensures IsNormal(Resolve(stack, parts))
    decreases |parts|
  {
    if parts != [] {
      ResolveNormal(Step(stack, parts[0]), parts[1..]);
    }
  }

  /** Parts without ".." only descend: the directory stays a prefix. */
  lemma {:induction false} ResolveDescends(stack: seq<string>, parts: seq<string>)
    requires forall i :: 0 <= i < |parts| ==> parts[i] != ".."
    ensures stack <= Resolve(stack, parts)
    decreases |parts|
  {
    if parts != [] {
      ResolveDescends(Step(stack, parts[0]), parts[1..]);
    }
  }

  /** Normal components resolve onto the stack unchanged. */
  lemma {:induction false} ResolveNormalParts(stack: seq<string>, cs: seq<string>)
    requires IsNormal(cs)
    ensures Resolve(stack, cs) == stack + cs
    decreases |cs|
  {
    if cs != [] {
      ResolveNormalParts(stack + [cs[0]], cs[1..]);
      assert stack + [cs[0]] + cs[1..] == stack + cs;
    }
  }

  /** An empty part resolves to nothing. */
  lemma ResolveEmptyFirst(stack: seq<string>, parts: seq<string>)
    ensures Resolve(stack, [""] + parts) == Resolve(stack, parts)
  {
    assert ([""] + parts)[1..] == parts;
  }

  /** Reading a rendered normalised path back gives its components and its
      root. */
  lemma RenderRoundTrip(double: bool, cs: seq<string>, cwd: string)
    requires IsNormal(cs)
    ensures AbsPath(Render(double, cs), cwd) == cs
    ensures AbsDoubleRoot(Render(double, cs), cwd) == double
  {
    var j := Join(cs, '/');
    var r := Render(double, cs);
    assert IsAbs(r);
    SplitSep(j, '/');
    if double {
      assert r == "/" + ("/" + j);
      SplitSep("/" + j, '/');
      ResolveEmptyFirst([], Split("/" + j, '/'));
    } else {
      assert r == "/" + j;
    }
    ResolveEmptyFirst([], Split(j, '/'));
    if cs == [] {
      assert Split(j, '/') == [""];
      ResolveEmptyFirst([], []);
    } else {
      assert IsNormalPart(cs[0]);
      assert j[0] == cs[0][0] && cs[0][0] in cs[0];
      SplitJoin(cs, '/');
      ResolveNormalParts([], cs);
    }
  }

  lemma BaseIsNormal(base: string, processCwd: string)
    ensures IsNormal(AbsPath(base, processCwd))
  {
    ResolveNormal([], Split(processCwd, '/'));
    ResolveNormal([], Split(base, '/'));
    ResolveNormal(Resolve([], Split(processCwd, '/')), Split(base, '/'));
  }

  /** An absolute path is accepted, and the returned path names the same
      normalised location, with the same root. */
  lemma AbsoluteAccepted(path: string, baseDir: Option<string>, currentCwd: string, processCwd: string)
    requires IsAbs(path)
    ensures ValidatePath(path, baseDir, currentCwd, processCwd).Success?
    ensures AbsPath(ValidatePath(path, baseDir, currentCwd, processCwd).value, processCwd)
         == AbsPath(path, processCwd)
    ensures AbsDoubleRoot(ValidatePath(path, baseDir, currentCwd, processCwd).value, processCwd) == DoubleRoot(path)
  {
    ResolveNormal([], Split(path, '/'));
    RenderRoundTrip(DoubleRoot(path), Resolve([], Split(path, '/')), processCwd);
  }

  /** Containment: a relative path is accepted only when the returned path,
      read back, lies inside the resolved base directory, and it is accepted
      whenever it resolves there, unless the base starts with "//". */
  lemma RelativeContained(path: string, baseDir: Option<string>, currentCwd: string, processCwd: string)
    requires !IsAbs(path)
    ensures var base := if baseDir.Some? && baseDir.value != "" then baseDir.value else currentCwd;
            var resolvedBase := AbsPath(base, processCwd);
            var r := ValidatePath(path, baseDir, currentCwd, processCwd);
            && (r.Success? <==> !AbsDoubleRoot(base, processCwd) && resolvedBase <= Resolve(resolvedBase, Split(path, '/')))
            && (r.Success? ==> resolvedBase <= AbsPath(r.value, processCwd) && !AbsDoubleRoot(r.value, processCwd))
  {
    var base := if baseDir.Some? && baseDir.value != "" then baseDir.value else currentCwd;
    var resolvedBase := AbsPath(base, processCwd);
    BaseIsNormal(base, processCwd);
    ResolveNormal(resolvedBase, Split(path, '/'));
    RenderRoundTrip(false, Resolve(resolvedBase, Split(path, '/')), processCwd);
  }

  /** A relative path with no ".." part is accepted exactly when the base
      does not start with "//". */
  lemma DescendingAccepted(path: string, baseDir: Option<string>, currentCwd: string, processCwd: string)
    requires !IsAbs(path)
    requires forall i :: 0 <= i < |Split(path, '/')| ==> Split(path, '/')[i] != ".."
    ensures var base := if baseDir.Some? && baseDir.value != "" then baseDir.value else currentCwd;
            ValidatePath(path, baseDir, currentCwd, processCwd).Success? <==> !AbsDoubleRoot(base, processCwd)
  {
    var base := if baseDir.Some? && baseDir.value != "" then baseDir.value else currentCwd;
    ResolveDescends(AbsPath(base, processCwd), Split(path, '/'));
  }

  /** A normalised absolute path comes back unchanged, its root included:
      "//srv/x" stays "//srv/x". */
  lemma NormalPathUnchanged(double: bool, cs: seq<string>, baseDir: Option<string>,
                            currentCwd: string, processCwd: string)
    requires IsNormal(cs)
    ensures ValidatePath(Render(double, cs), baseDir, currentCwd, processCwd) == Success(Render(double, cs))
  {
    RenderRoundTrip(double, cs, processCwd);
  }

  /** Climbing out of a non-root base with ".." is rejected. */
  lemma ParentRejected(path: string, baseDir: Option<string>, currentCwd: string, processCwd: string)
    requires !IsAbs(path) && Split(path, '/') == [".."]
    requires var base := if baseDir.Some? && baseDir.value != "" then baseDir.value else currentCwd;
             AbsPath(base, processCwd) != []
    ensures ValidatePath(path, baseDir, currentCwd, processCwd).Failure?
  {
    var base := if baseDir.Some? && baseDir.value != "" then baseDir.value else currentCwd;
    var b := AbsPath(base, processCwd);
    assert Resolve(b, [".."]) == Resolve(b[..|b| - 1], []) == b[..|b| - 1];
  }

  lemma LowerContains(path: string, resolved: string, base: string)
    requires Contains(Lower(path), "different drives")
    ensures Contains(Lower(TraversalMessage(path, resolved, base)), "different drives")
  {
    var pre := "Path traversal detected: '";
    var post := "' resolves to '" + resolved + "' which is outside base directory '" + base + "'";
    assert TraversalMessage(path, resolved, base) == pre + path + post;
    LowerConcat(pre + path, post);
    LowerConcat(pre, path);
    ContainsInfix(Lower(pre), Lower(path), Lower(post), "different drives");
  }

  /** The path check as written lets an escaping path through when the path
      names "different drives", where the intended check rejects it. */
  lemma AsWrittenSkipsCheck(path: string, baseDir: Option<string>, currentCwd: string, processCwd: string)
    requires !IsAbs(path) && Contains(Lower(path), "different drives")
    requires var base := if baseDir.Some? && baseDir.value != "" then baseDir.value else currentCwd;
             !(AbsPath(base, processCwd) <= Resolve(AbsPath(base, processCwd), Split(path, '/')))
    ensures ValidatePathAsWritten(path, baseDir, currentCwd, processCwd).Success?
    ensures ValidatePath(path, baseDir, currentCwd, processCwd).Failure?
  {
    var base := if baseDir.Some? && baseDir.value != "" then baseDir.value else currentCwd;
    var resolvedBase := AbsPath(base, processCwd);
    var double := AbsDoubleRoot(base, processCwd);
    LowerContains(path, Render(double, Resolve(resolvedBase, Split(path, '/'))), Render(double, resolvedBase));
  }
}
