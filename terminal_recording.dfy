/** The scene-based terminal recorder of utils/terminal_recorder.py: the
    asciicast v2 writer, the typing simulation with injected typos, the
    duration read back from a cast file, shell shutdown, and the two ways a
    scene description becomes actions. The clock, the random choices, the
    pseudo-terminal and `json.dumps`/`json.loads` are parameters. */
module TerminalRecording {
  import opened Wrappers
  import opened Text
  import opened Json

  // ---------------------------------------------------------------------
  // AsciicastWriter

  /** The header written on entering the writer. */
  function WriterHeader(width: int, height: int, nowSeconds: int, environ: map<string, string>): Json
  {
    JObj([("version", JInt(2)), ("width", JInt(width)), ("height", JInt(height)),
          ("timestamp", JInt(nowSeconds)),
          ("env", JObj([("SHELL", JStr(if "SHELL" in environ then environ["SHELL"] else "/bin/bash")),
                        ("TERM", JStr(if "TERM" in environ then environ["TERM"] else "xterm-256color"))]))])
  }

  /** One event line: the time since the start, "o" or "i", the text. */
  function EventLine(elapsed: int, code: string, text: string): Json
  {
    JArr([JMillis(elapsed), JStr(code), JStr(text)])
  }

  /** The asciicast writer: `lines` are the lines written to the file so
      far, without their newlines; `startTime` is the clock reading (in
      milliseconds) taken just after the header was written. `hasFile` is
      whether a file object was ever opened (it is kept after closing) and
      `isOpen` whether that file is still open. */
  class AsciicastWriter {
    const width: int
    const height: int
    var hasFile: bool
    var isOpen: bool
    var startTime: Option<int>
    var lines: seq<string>

    constructor (width: int, height: int)
      ensures this.width == width && this.height == height
      ensures !hasFile && !isOpen && startTime == None && lines == []
    {
      this.width := width;
      this.height := height;
      hasFile := false;
      isOpen := false;
      startTime := None;
      lines := [];
    }

    /** The guard of the write methods: a file object is held (open or
        not, since a closed file is still truthy) and the start time is set
        (a start time of zero counts as unset). */
    predicate Guarded()
      reads this
    {
      hasFile && startTime.Some? && startTime.value != 0
    }

    /** `__enter__`: opens the file and writes the header line, whose
        timestamp is the clock reading `headerNow` in whole seconds; the
        start time is a second reading `now`, both in milliseconds. */
    method Enter(headerNow: int, now: int, environ: map<string, string>, dumps: Json -> string)
      modifies this
      ensures hasFile && isOpen && startTime == Some(now)
      ensures lines == [dumps(WriterHeader(width, height, headerNow / 1000, environ))]
    {
      hasFile := true;
      isOpen := true;
      lines := [dumps(WriterHeader(width, height, headerNow / 1000, environ))];
      startTime := Some(now);
    }

    /** `__exit__`: closes the file if there is one; the file object is
        kept. */
    method Exit()
      modifies this
      ensures !isOpen && hasFile == old(hasFile)
      ensures startTime == old(startTime) && lines == old(lines)
    {
      isOpen := false;
    }

    /** One event line. `raised` is the ValueError of writing to a closed
        file: the guard passes but the file is no longer open. */
    method WriteEvent(code: string, text: string, now: int, dumps: Json -> string) returns (raised: bool)
      modifies this
      ensures hasFile == old(hasFile) && isOpen == old(isOpen) && startTime == old(startTime)
      ensures raised <==> old(Guarded()) && !old(isOpen)
      ensures old(Guarded()) && old(isOpen) ==>
        lines == old(lines) + [dumps(EventLine(now - startTime.value, code, text))]
      ensures !(old(Guarded()) && old(isOpen)) ==> lines == old(lines)
    {
      raised := false;
      if Guarded() {
        if isOpen {
          lines := lines + [dumps(EventLine(now - startTime.value, code, text))];
        } else {
          raised := true;
        }
      }
    }

    /** `write_output` */
    method WriteOutput(text: string, now: int, dumps: Json -> string) returns (raised: bool)
      modifies this
      ensures hasFile == old(hasFile) && isOpen == old(isOpen) && startTime == old(startTime)
      ensures raised <==> old(Guarded()) && !old(isOpen)
      ensures old(Guarded()) && old(isOpen) ==>
        lines == old(lines) + [dumps(EventLine(now - startTime.value, "o", text))]
      ensures !(old(Guarded()) && old(isOpen)) ==> lines == old(lines)
    {
      raised := WriteEvent("o", text, now, dumps);
    }

    /** `write_input` */
    method WriteInput(text: string, now: int, dumps: Json -> string) returns (raised: bool)
      modifies this
      ensures hasFile == old(hasFile) && isOpen == old(isOpen) && startTime == old(startTime)
      ensures raised <==> old(Guarded()) && !old(isOpen)
      ensures old(Guarded()) && old(isOpen) ==>
        lines == old(lines) + [dumps(EventLine(now - startTime.value, "i", text))]
      ensures !(old(Guarded()) && old(isOpen)) ==> lines == old(lines)
    {
      raised := WriteEvent("i", text, now, dumps);
    }
  }

  /** Writing after leaving the `with` block raises: enter, exit, then
      write output. */
  method WriteAfterExitRaises(width: int, height: int, headerNow: int, now: int,
                              environ: map<string, string>, dumps: Json -> string, text: string, later: int)
    returns (raised: bool)
    requires now != 0
    ensures raised
  {
    var w := new AsciicastWriter(width, height);
    w.Enter(headerNow, now, environ, dumps);
    w.Exit();
    raised := w.WriteOutput(text, later, dumps);
  }

  // ---------------------------------------------------------------------
  // _type_with_simulation

  /** What the terminal shows for a corrected typo. */
  const ERASE_ECHO: string := "\U{8} \U{8}"
  /** The key sent to the shell to correct a typo. */
  const DELETE_KEY: string := "\U{7F}"

  /** A typo is made at position i when the random test says so, the
      character is a letter, and it is not the last character. */
  predicate TypoAt(text: string, mistakes: seq<bool>, i: nat)
    requires i < |text| && |mistakes| == |text|
  {
    mistakes[i] && IsAlpha(text[i]) && i < |text| - 1
  }

  /** What is written for the character at position i: the wrong letter
      and its erasure first when a typo is made, then the character. */
  function Keystrokes(text: string, mistakes: seq<bool>, wrong: seq<char>, i: nat): seq<string>
    requires i < |text| && |mistakes| == |text| && |wrong| == |text|
  {
    if TypoAt(text, mistakes, i) then [[wrong[i]], ERASE_ECHO, [text[i]]] else [[text[i]]]
  }

  /** The keys sent to the shell for the character at position i. */
  function KeysSent(text: string, mistakes: seq<bool>, wrong: seq<char>, i: nat): seq<string>
    requires i < |text| && |mistakes| == |text| && |wrong| == |text|
  {
    if TypoAt(text, mistakes, i) then [[wrong[i]], DELETE_KEY, [text[i]]] else [[text[i]]]
  }

  /** The output events for the first n characters. */
  function TypedOutput(text: string, mistakes: seq<bool>, wrong: seq<char>, n: nat): seq<string>
    requires n <= |text| && |mistakes| == |text| && |wrong| == |text|
  {
    if n == 0 then [] else TypedOutput(text, mistakes, wrong, n - 1) + Keystrokes(text, mistakes, wrong, n - 1)
  }

  /** The keys sent for the first n characters. */
  function TypedKeys(text: string, mistakes: seq<bool>, wrong: seq<char>, n: nat): seq<string>
    requires n <= |text| && |mistakes| == |text| && |wrong| == |text|
  {
    if n == 0 then [] else TypedKeys(text, mistakes, wrong, n - 1) + KeysSent(text, mistakes, wrong, n - 1)
  }

  /** The number of typos among the first n characters. */
  function TypoCount(text: string, mistakes: seq<bool>, n: nat): nat
    requires n <= |text| && |mistakes| == |text|
  {
    if n == 0 then 0 else TypoCount(text, mistakes, n - 1) + (if TypoAt(text, mistakes, n - 1) then 1 else 0)
  }

  /** There are two extra output events per typo. */
  lemma {:induction false} TypedOutputLength(text: string, mistakes: seq<bool>, wrong: seq<char>, n: nat)
    requires n <= |text| && |mistakes| == |text| && |wrong| == |text|
    ensures |TypedOutput(text, mistakes, wrong, n)| == n + 2 * TypoCount(text, mistakes, n)
    ensures |TypedKeys(text, mistakes, wrong, n)| == n + 2 * TypoCount(text, mistakes, n)
  {
    if n > 0 {
      TypedOutputLength(text, mistakes, wrong, n - 1);
    }
  }

  /** Where the i-th character of the text is written. */
  function CharPosition(text: string, mistakes: seq<bool>, i: nat): nat
    requires i < |text| && |mistakes| == |text|
  {
    i + 2 * TypoCount(text, mistakes, i + 1)
  }

  /** Every character of the text is written once, in order, at its
      position; a typo puts the wrong letter and its erasure just before
      it. Together with the length, nothing else is written. */
  lemma {:induction false} TypedOutputChars(text: string, mistakes: seq<bool>, wrong: seq<char>, n: nat, i: nat)
    requires n <= |text| && |mistakes| == |text| && |wrong| == |text| && i < n
    ensures var out := TypedOutput(text, mistakes, wrong, n);
      var p := CharPosition(text, mistakes, i);
      && p < |out| && out[p] == [text[i]]
      && (i + 1 < n ==> p < CharPosition(text, mistakes, i + 1))
      && (TypoAt(text, mistakes, i) ==> p >= 2 && out[p - 2] == [wrong[i]] && out[p - 1] == ERASE_ECHO)
      && (!TypoAt(text, mistakes, i) ==> (i == 0 ==> p == 0) && (i > 0 ==> p == CharPosition(text, mistakes, i - 1) + 1))
  {
    var pre := TypedOutput(text, mistakes, wrong, i + 1);
    LastKeystrokes(text, mistakes, wrong, i);
    CharPositionStep(text, mistakes, i);
    if i + 1 < n {
      TypedOutputPrefix(text, mistakes, wrong, i + 1, n);
    }
    WrittenBefore(pre, TypedOutput(text, mistakes, wrong, n));
  }

  /** Character positions grow by one, or by three across a typo. */
  lemma CharPositionStep(text: string, mistakes: seq<bool>, i: nat)
    requires i < |text| && |mistakes| == |text|
    ensures i + 1 < |text| ==> CharPosition(text, mistakes, i) < CharPosition(text, mistakes, i + 1)
    ensures TypoAt(text, mistakes, i) ==> CharPosition(text, mistakes, i) >= 2
    ensures !TypoAt(text, mistakes, i) && i == 0 ==> CharPosition(text, mistakes, i) == 0
    ensures !TypoAt(text, mistakes, i) && i > 0 ==>
      CharPosition(text, mistakes, i) == CharPosition(text, mistakes, i - 1) + 1
  {
    assert TypoCount(text, mistakes, i + 1) == TypoCount(text, mistakes, i) + if TypoAt(text, mistakes, i) then 1 else 0;
    if i + 1 < |text| {
      assert TypoCount(text, mistakes, i + 2) >= TypoCount(text, mistakes, i + 1);
    }
  }

  /** The events written for the first i + 1 characters end with those
      for character i, the character itself last. */
  lemma LastKeystrokes(text: string, mistakes: seq<bool>, wrong: seq<char>, i: nat)
    requires i < |text| && |mistakes| == |text| && |wrong| == |text|
    ensures var pre := TypedOutput(text, mistakes, wrong, i + 1);
      && |pre| == CharPosition(text, mistakes, i) + 1
      && pre[|pre| - 1] == [text[i]]
      && (TypoAt(text, mistakes, i) ==> |pre| >= 3 && pre[|pre| - 3] == [wrong[i]] && pre[|pre| - 2] == ERASE_ECHO)
  {
    TypedOutputLength(text, mistakes, wrong, i + 1);
    var pre := TypedOutput(text, mistakes, wrong, i + 1);
    var ks := Keystrokes(text, mistakes, wrong, i);
    assert pre == TypedOutput(text, mistakes, wrong, i) + ks;
    assert pre[|pre| - 1] == ks[|ks| - 1];
    if TypoAt(text, mistakes, i) {
      assert pre[|pre| - 3] == ks[0] && pre[|pre| - 2] == ks[1];
    }
  }

  /** A prefix keeps its elements in a longer sequence. */
  lemma WrittenBefore(pre: seq<string>, out: seq<string>)
    requires pre <= out
    ensures forall k :: 0 <= k < |pre| ==> out[k] == pre[k]
  {
  }

  /** Typing more characters only appends to what was written. */
  lemma {:induction false} TypedOutputPrefix(text: string, mistakes: seq<bool>, wrong: seq<char>, m: nat, n: nat)
    requires m <= n <= |text| && |mistakes| == |text| && |wrong| == |text|
    ensures TypedOutput(text, mistakes, wrong, m) <= TypedOutput(text, mistakes, wrong, n)
    decreases n - m
  {
    if m < n {
      TypedOutputPrefix(text, mistakes, wrong, m, n - 1);
    }
  }

  /** `_type_with_simulation`: `mistakes[i]` is the outcome of the random
      test for character i and `wrong[i]` the wrong letter drawn for it.
      Returns the output events written and the keys sent, in order. */
  method TypeWithSimulation(text: string, mistakes: seq<bool>, wrong: seq<char>)
    returns (outputs: seq<string>, keys: seq<string>)
    requires |mistakes| == |text| && |wrong| == |text|
    ensures outputs == TypedOutput(text, mistakes, wrong, |text|)
    ensures keys == TypedKeys(text, mistakes, wrong, |text|)
  {
    outputs, keys := [], [];
    var i := 0;
    while i < |text|
      invariant i <= |text|
      invariant outputs == TypedOutput(text, mistakes, wrong, i)
      invariant keys == TypedKeys(text, mistakes, wrong, i)
    {
      var c := text[i];
      var sent, shown;
      if mistakes[i] && IsAlpha(c) && i < |text| - 1 {
        sent, shown := [[wrong[i]], DELETE_KEY, [c]], [[wrong[i]], ERASE_ECHO, [c]];
      } else {
        sent, shown := [[c]], [[c]];
      }
      keys := keys + sent;
      outputs := outputs + shown;
      i := i + 1;
    }
  }

  // ---------------------------------------------------------------------
  // _get_cast_duration

  /** `f.readlines()` without the line terminators. */
  function ReadLines(content: string): (r: seq<string>)
  {
    var parts := Split(content, '\n');
    if parts[|parts| - 1] == "" then parts[..|parts| - 1] else parts
  }

  /** `_get_cast_duration`: 0 for an unreadable file, fewer than two
      lines, or a last line that does not parse or cannot be indexed;
      otherwise the first element of the last line. `content` is None when
      the file cannot be read. */
  function CastDuration(content: Option<string>, loads: string -> Option<Json>): Json
  {
    if content.None? then JInt(0)
    else
      var lines := ReadLines(content.value);
      if |lines| < 2 then JInt(0)
      else match loads(lines[|lines| - 1])
        case None => JInt(0)
        case Some(JArr(items)) => if items == [] then JInt(0) else items[0]
        case Some(JStr(s)) => if s == [] then JInt(0) else JStr([s[0]])
        case Some(_) => JInt(0)
  }

  lemma ReadLinesConcatLines(ls: seq<string>)
    requires forall i :: 0 <= i < |ls| ==> '\n' !in ls[i]
    ensures ReadLines(ConcatLines(ls)) == ls
  {
    SplitConcatLines(ls);
    assert (ls + [""])[..|ls|] == ls;
  }

  /** A cast written by the writer with at least one event lasts until
      its last event, provided `json.loads` reads back what `json.dumps`
      wrote. */
  lemma CastDurationOfWrittenCast(header: Json, events: seq<(int, string, string)>,
                                  dumps: Json -> string, loads: string -> Option<Json>)
    requires forall j: Json :: '\n' !in dumps(j) && loads(dumps(j)) == Some(j)
    requires |events| >= 1
    ensures var ls := [dumps(header)] + seq(|events|, i requires 0 <= i < |events| =>
                                                dumps(EventLine(events[i].0, events[i].1, events[i].2)));
      CastDuration(Some(ConcatLines(ls)), loads) == JMillis(events[|events| - 1].0)
  {
    var ls := [dumps(header)] + seq(|events|, i requires 0 <= i < |events| =>
                                      dumps(EventLine(events[i].0, events[i].1, events[i].2)));
    forall i | 0 <= i < |ls|
      ensures '\n' !in ls[i]
    {
      if i > 0 {
        var e := events[i - 1];
        assert ls[i] == dumps(EventLine(e.0, e.1, e.2));
      }
    }
    var last := events[|events| - 1];
    assert ls[|ls| - 1] == dumps(EventLine(last.0, last.1, last.2));
    DurationOfLastLine(ls, loads, EventLine(last.0, last.1, last.2));
  }

  /** The duration of a file of two or more lines is the first element of
      what its last line parses to. */
  lemma DurationOfLastLine(ls: seq<string>, loads: string -> Option<Json>, j: Json)
    requires forall i :: 0 <= i < |ls| ==> '\n' !in ls[i]
    requires |ls| >= 2 && loads(ls[|ls| - 1]) == Some(j) && j.JArr? && j.items != []
    ensures CastDuration(Some(ConcatLines(ls)), loads) == j.items[0]
  {
    ReadLinesConcatLines(ls);
    DurationOfContent(ConcatLines(ls), ls, loads, j);
  }

  lemma DurationOfContent(content: string, lines: seq<string>, loads: string -> Option<Json>, j: Json)
    requires ReadLines(content) == lines
    requires |lines| >= 2 && loads(lines[|lines| - 1]) == Some(j) && j.JArr? && j.items != []
    ensures CastDuration(Some(content), loads) == j.items[0]
  {
  }

  /** Fewer than two lines give a duration of 0. */
  lemma ShortCastHasNoDuration(content: string, loads: string -> Option<Json>)
    requires |ReadLines(content)| < 2
    ensures CastDuration(Some(content), loads) == JInt(0)
  {
  }

  // ---------------------------------------------------------------------
  // _stop_shell

  /** The shell process and terminal handles of the recorder; 0 and None
      both count as "no process" and "no terminal". */
  class ShellSession {
    var childPid: Option<int>
    var masterFd: Option<int>

    constructor ()
      ensures childPid == None && masterFd == None
    {
      childPid := None;
      masterFd := None;
    }

    /** `_stop_shell`: kills the child and closes the terminal when they
        are set (failures are ignored), then forgets them. */
    method StopShell()
      modifies this
      ensures childPid == StopHandle(old(childPid)) && masterFd == StopHandle(old(masterFd))
    {
      if childPid.Some? && childPid.value != 0 {
        childPid := None;
      }
      if masterFd.Some? && masterFd.value != 0 {
        masterFd := None;
      }
    }
  }

  /** A handle after `_stop_shell`: forgotten unless it was falsy. */
  function StopHandle(h: Option<int>): (r: Option<int>)
  {
    if h.Some? && h.value != 0 then None else h
  }

  /** Stopping leaves no live handle, and stopping again changes nothing. */
  lemma StopHandleIdempotent(h: Option<int>)
    ensures StopHandle(h).None? || StopHandle(h) == Some(0)
    ensures StopHandle(StopHandle(h)) == StopHandle(h)
  {
  }

  // ---------------------------------------------------------------------
  // Scenes and actions

  datatype TerminalAction = TerminalAction(
    actionType: string,
    text: Option<string>,
    pattern: Option<string>,
    delayAfter: int)

  datatype TerminalScene = TerminalScene(
    name: string,
    actions: seq<TerminalAction>,
    narrationNotes: Option<string>)

  /** An action as given in a scene description; a missing key is None. */
  datatype RawAction = RawAction(
    command: Option<string>,
    actionType: Option<string>,
    text: Option<string>,
    pattern: Option<string>,
    delayAfter: Option<int>,
    waitFor: Option<string>,
    timeout: Option<int>)

  datatype RawScene = RawScene(
    name: Option<string>,
    actions: seq<RawAction>,
    narrationNotes: Option<string>)

  const DEFAULT_DELAY_AFTER: int := 1000
  const DEFAULT_WAIT_TIMEOUT: int := 30000

  /** How `parse_terminal_script` reads one action: a command, a typed
      action with text, or a wait for a pattern; anything else is dropped. */
  function ClassifyAction(a: RawAction): Option<TerminalAction>
  {
    if a.command.Some? then
      Some(TerminalAction("command", a.command, None, a.delayAfter.GetOr(DEFAULT_DELAY_AFTER)))
    else if a.actionType.Some? && a.text.Some? then
      Some(TerminalAction(a.actionType.value, a.text, a.pattern, a.delayAfter.GetOr(DEFAULT_DELAY_AFTER)))
    else if a.waitFor.Some? then
      Some(TerminalAction("wait_for", None, a.waitFor, a.timeout.GetOr(DEFAULT_WAIT_TIMEOUT)))
    else None
  }

  /** The classification, case by case. */
  lemma ClassifyActionCases(a: RawAction)
    ensures a.command.Some? ==>
      ClassifyAction(a) == Some(TerminalAction("command", a.command, None,
                                               if a.delayAfter.Some? then a.delayAfter.value else 1000))
    ensures a.command.None? && a.actionType.Some? && a.text.Some? ==>
      && ClassifyAction(a).Some?
      && ClassifyAction(a).value.actionType == a.actionType.value
      && ClassifyAction(a).value.text == a.text
      && ClassifyAction(a).value.pattern == a.pattern
    ensures a.command.None? && (a.actionType.None? || a.text.None?) && a.waitFor.Some? ==>
      ClassifyAction(a) == Some(TerminalAction("wait_for", None, a.waitFor,
                                               if a.timeout.Some? then a.timeout.value else 30000))
    ensures ClassifyAction(a).None? <==>
      a.command.None? && (a.actionType.None? || a.text.None?) && a.waitFor.None?
  {
  }

  /** The actions kept from a list, in order. */
  function KeptActions(raw: seq<RawAction>): seq<TerminalAction>
  {
    if raw == [] then []
    else
      var rest := KeptActions(raw[..|raw| - 1]);
      match ClassifyAction(raw[|raw| - 1])
      case Some(a) => rest + [a]
      case None => rest
  }

  /** Every kept action comes from one raw action, in the same order, and
      every classifiable action is kept. */
  lemma {:induction false} KeptActionsSpec(raw: seq<RawAction>)
    ensures |KeptActions(raw)| <= |raw|
    ensures forall a :: a in KeptActions(raw) ==> exists r :: r in raw && ClassifyAction(r) == Some(a)
    ensures forall r :: r in raw && ClassifyAction(r).Some? ==> ClassifyAction(r).value in KeptActions(raw)
  {
    if raw != [] {
      var init := raw[..|raw| - 1];
      KeptActionsSpec(init);
      forall r | r in raw && ClassifyAction(r).Some?
        ensures ClassifyAction(r).value in KeptActions(raw)
      {
        if r != raw[|raw| - 1] {
          assert r in init;
        }
      }
      forall a | a in KeptActions(raw)
        ensures exists r :: r in raw && ClassifyAction(r) == Some(a)
      {
        if a in KeptActions(init) {
          var r :| r in init && ClassifyAction(r) == Some(a);
          assert r in raw;
        } else {
          assert ClassifyAction(raw[|raw| - 1]) == Some(a);
        }
      }
    }
  }

  /** Filtering keeps order and multiplicity: it distributes over
      concatenation, and one raw action yields its classification or
      nothing. */
  lemma {:induction false} KeptActionsAppend(s: seq<RawAction>, t: seq<RawAction>)
    ensures KeptActions(s + t) == KeptActions(s) + KeptActions(t)
    decreases |t|
  {
    if t == [] {
      assert s + t == s;
    } else {
      var init := t[..|t| - 1];
      assert (s + t)[..|s + t| - 1] == s + init;
      assert (s + t)[|s + t| - 1] == t[|t| - 1];
      KeptActionsAppend(s, init);
    }
  }

  lemma KeptActionsSingle(r: RawAction)
    ensures KeptActions([r]) == (if ClassifyAction(r).Some? then [ClassifyAction(r).value] else [])
  {
    assert [r][..0] == [];
  }

  /** `parse_terminal_script`, starting from the parsed scene list. */
  method ParseTerminalScript(raw: seq<RawScene>) returns (scenes: seq<TerminalScene>)
    ensures |scenes| == |raw|
    ensures forall i :: 0 <= i < |raw| ==>
      scenes[i] == TerminalScene(raw[i].name.GetOr(""), KeptActions(raw[i].actions), raw[i].narrationNotes)
  {
    scenes := [];
    var i := 0;
    while i < |raw|
      invariant i <= |raw| && |scenes| == i
      invariant forall k :: 0 <= k < i ==>
        scenes[k] == TerminalScene(raw[k].name.GetOr(""), KeptActions(raw[k].actions), raw[k].narrationNotes)
    {
      var actions: seq<TerminalAction> := [];
      var j := 0;
      while j < |raw[i].actions|
        invariant j <= |raw[i].actions|
        invariant actions == KeptActions(raw[i].actions[..j])
      {
        assert raw[i].actions[..j + 1][..j] == raw[i].actions[..j];
        var classified := ClassifyAction(raw[i].actions[j]);
        if classified.Some? {
          actions := actions + [classified.value];
        }
        j := j + 1;
      }
      assert raw[i].actions[..j] == raw[i].actions;
      scenes := scenes + [TerminalScene(raw[i].name.GetOr(""), actions, raw[i].narrationNotes)];
      i := i + 1;
    }
  }

  /** A scene dictionary as `record_terminal_demo` receives it. */
  datatype SceneDict = SceneDict(name: Option<string>, actions: seq<ActionDict>, narrationNotes: Option<string>)

  datatype ActionDict = ActionDict(actionType: Option<string>, text: Option<string>, pattern: Option<string>,
                                   delayAfter: Option<int>)

  /** `record_terminal_demo`'s conversion of one scene dictionary. */
  function ConvertScene(d: SceneDict): (s: TerminalScene)
    ensures |s.actions| == |d.actions|
    ensures s.name == (if d.name.Some? then d.name.value else "")
    ensures forall i :: 0 <= i < |d.actions| ==>
      && s.actions[i].actionType == (if d.actions[i].actionType.Some? then d.actions[i].actionType.value else "command")
      && s.actions[i].delayAfter == (if d.actions[i].delayAfter.Some? then d.actions[i].delayAfter.value else 1000)
      && s.actions[i].text == d.actions[i].text && s.actions[i].pattern == d.actions[i].pattern
  {
    TerminalScene(d.name.GetOr(""),
                  seq(|d.actions|, i requires 0 <= i < |d.actions| =>
                    TerminalAction(d.actions[i].actionType.GetOr("command"), d.actions[i].text,
                                   d.actions[i].pattern, d.actions[i].delayAfter.GetOr(DEFAULT_DELAY_AFTER))),
                  d.narrationNotes)
  }

  // ---------------------------------------------------------------------
  // TerminalRecordingResult.to_dict

  datatype RecordingResult = RecordingResult(
    status: string,
    castPath: Option<string>,
    videoPath: Option<string>,
    durationMs: Option<int>,
    error: Option<string>)

  /** A path is held as the text of a path object. A set path object is
      always true, so a set path is written as its text and a missing one
      as null. */
  function PathJson(p: Option<string>): Json
  {
    if p.Some? then JStr(p.value) else JNull
  }

  function ResultToDict(r: RecordingResult): (j: Json)
    ensures j.JObj? && Keys(j.fields) == ["status", "cast_path", "video_path", "duration_seconds", "error"]
  {
    JObj([("status", JStr(r.status)), ("cast_path", PathJson(r.castPath)), ("video_path", PathJson(r.videoPath)),
          ("duration_seconds", if r.durationMs.Some? then JMillis(r.durationMs.value) else JNull),
          ("error", if r.error.Some? then JStr(r.error.value) else JNull)])
  }

  /** Each value of the dictionary sits under its key: the status as a
      string, a path as a string when it is set (None otherwise), the duration and the error as given or None. */
  lemma ResultToDictValues(r: RecordingResult)
    ensures var fields := ResultToDict(r).fields;
      && Get(fields, "status") == Some(JStr(r.status))
      && Get(fields, "cast_path") == Some(if r.castPath.Some? then JStr(r.castPath.value) else JNull)
      && Get(fields, "video_path") == Some(if r.videoPath.Some? then JStr(r.videoPath.value) else JNull)
      && Get(fields, "duration_seconds") == Some(if r.durationMs.Some? then JMillis(r.durationMs.value) else JNull)
      && Get(fields, "error") == Some(if r.error.Some? then JStr(r.error.value) else JNull)
  {
    ResultFieldsGet(JStr(r.status), PathJson(r.castPath), PathJson(r.videoPath),
                    if r.durationMs.Some? then JMillis(r.durationMs.value) else JNull,
                    if r.error.Some? then JStr(r.error.value) else JNull);
  }

  /** Lookups in a field list with the result dictionary's five keys. */
  lemma ResultFieldsGet(status: Json, cast: Json, video: Json, duration: Json, error: Json)
    ensures var fields := [("status", status), ("cast_path", cast), ("video_path", video),
                           ("duration_seconds", duration), ("error", error)];
      && Get(fields, "status") == Some(status) && Get(fields, "cast_path") == Some(cast)
      && Get(fields, "video_path") == Some(video) && Get(fields, "duration_seconds") == Some(duration)
      && Get(fields, "error") == Some(error)
  {
    var fields := [("status", status), ("cast_path", cast), ("video_path", video),
                   ("duration_seconds", duration), ("error", error)];
    var tail := [("cast_path", cast), ("video_path", video), ("duration_seconds", duration), ("error", error)];
    assert fields[1..] == tail;
    TailFieldsGet(cast, video, duration, error);
    // "status" is shorter than every later key but "error", and differs from it
    assert |"status"| == 6 && "status"[0] != "error"[0];
  }

  /** Lookups in the last four fields of the result dictionary. */
  lemma TailFieldsGet(cast: Json, video: Json, duration: Json, error: Json)
    ensures var tail := [("cast_path", cast), ("video_path", video), ("duration_seconds", duration), ("error", error)];
      && Get(tail, "cast_path") == Some(cast) && Get(tail, "video_path") == Some(video)
      && Get(tail, "duration_seconds") == Some(duration) && Get(tail, "error") == Some(error)
  {
    var tail := [("cast_path", cast), ("video_path", video), ("duration_seconds", duration), ("error", error)];
    GetFirst(tail, 0);
    GetFirst(tail, 1);
    GetFirst(tail, 2);
    GetFirst(tail, 3);
  }

  /** A string or null read from a result dictionary. */
  function OptionalString(v: Option<Json>): Option<Option<string>>
  {
    if v == Some(JNull) then Some(None)
    else if v.Some? && v.value.JStr? then Some(Some(v.value.s))
    else None
  }

  /** How a caller reads a result dictionary back; None when a key is
      missing or holds a value of the wrong kind. */
  function ResultFromDict(j: Json): Option<RecordingResult>
  {
    if !j.JObj? then None
    else
      var status := Get(j.fields, "status");
      var cast := OptionalString(Get(j.fields, "cast_path"));
      var video := OptionalString(Get(j.fields, "video_path"));
      var duration := Get(j.fields, "duration_seconds");
      var error := OptionalString(Get(j.fields, "error"));
      if status.None? || !status.value.JStr? || cast.None? || video.None? || error.None? then None
      else if duration == Some(JNull) then Some(RecordingResult(status.value.s, cast.value, video.value, None, error.value))
      else if duration.Some? && duration.value.JMillis? then
        Some(RecordingResult(status.value.s, cast.value, video.value, Some(duration.value.ms), error.value))
      else None
  }

  /** Reading the dictionary back gives the result. */
  lemma ResultDictRoundTrip(r: RecordingResult)
    ensures ResultFromDict(ResultToDict(r)) == Some(r)
  {
    ResultToDictValues(r);
    var fields := ResultToDict(r).fields;
    PathReadBack(r.castPath);
    PathReadBack(r.videoPath);
    assert OptionalString(Get(fields, "error")) == Some(r.error);
  }

  /** A path written into the dictionary reads back as the path. */
  lemma PathReadBack(p: Option<string>)
    ensures OptionalString(Some(PathJson(p))) == Some(p)
  {
  }
}
