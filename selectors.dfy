/** Selector choice and element naming of the selector discovery
    (utils/selectors.py): which Playwright selector an element gets, and
    the semantic name it is listed under. Page access is not modelled; an
    element is its tag, text and attributes. */
module Selectors {
  import opened Wrappers
  import opened Text

  const PRIORITY_TEST_ID := 1
  const PRIORITY_ARIA_LABEL := 2
  const PRIORITY_TEXT := 3
  const PRIORITY_NAME := 4
  const PRIORITY_PLACEHOLDER := 5
  const PRIORITY_ROLE := 6
  const PRIORITY_CSS_CLASS := 7
  const NO_SELECTOR := 999

  /** `(selector, selector_type, priority)` */
  datatype SelectorChoice = SelectorChoice(selector: Option<string>, selectorType: string, priority: int)

  /** The priority that goes with each selector type. */
  function PriorityOf(selectorType: string): int
  {
    match selectorType
    case "test-id" => PRIORITY_TEST_ID
    case "aria-label" => PRIORITY_ARIA_LABEL
    case "text" => PRIORITY_TEXT
    case "name" => PRIORITY_NAME
    case "placeholder" => PRIORITY_PLACEHOLDER
    case "role" => PRIORITY_ROLE
    case "css" => PRIORITY_CSS_CLASS
    case _ => NO_SELECTOR
  }

  // ---------------------------------------------------------------------
  // Class lists

  /** `s.split()`: the maximal runs of non-whitespace characters. */
  function Words(s: string): (r: seq<string>)
    ensures forall i :: 0 <= i < |r| ==> r[i] != [] && forall k :: 0 <= k < |r[i]| ==> !IsSpace(r[i][k])
  {
    WordsFrom(s, [])
  }

  function WordsFrom(s: string, cur: string): (r: seq<string>)
    requires forall k :: 0 <= k < |cur| ==> !IsSpace(cur[k])
    ensures forall i :: 0 <= i < |r| ==> r[i] != [] && forall k :: 0 <= k < |r[i]| ==> !IsSpace(r[i][k])
  {
    if s == [] then (if cur == [] then [] else [cur])
    else if IsSpace(s[0]) then
      (if cur == [] then [] else [cur]) + WordsFrom(s[1..], [])
    else WordsFrom(s[1..], cur + [s[0]])
  }

  /** The utility classes the css rule ignores. */
  predicate IsUtilityClass(c: string)
  {
    StartsWith(c, "p-") || StartsWith(c, "m-") || StartsWith(c, "text-") || StartsWith(c, "bg-")
    || StartsWith(c, "flex") || StartsWith(c, "grid") || StartsWith(c, "w-") || StartsWith(c, "h-")
  }

  predicate IsMeaningfulClass(c: string)
  {
    !IsUtilityClass(c) && |c| > 2
  }

  /** The meaningful classes, in their order. */
  function MeaningfulClasses(classes: seq<string>): (r: seq<string>)
    ensures |r| <= |classes|
    ensures forall i :: 0 <= i < |r| ==> IsMeaningfulClass(r[i]) && r[i] in classes
  {
    if classes == [] then []
    else if IsMeaningfulClass(classes[0]) then [classes[0]] + MeaningfulClasses(classes[1..])
    else MeaningfulClasses(classes[1..])
  }

  /** The filter keeps every meaningful class and only those. */
  lemma {:induction false} MeaningfulClassesComplete(classes: seq<string>, c: string)
    ensures c in MeaningfulClasses(classes) <==> c in classes && IsMeaningfulClass(c)
  {
    if classes != [] {
      MeaningfulClassesComplete(classes[1..], c);
      assert c in classes <==> c == classes[0] || c in classes[1..];
    }
  }

  /** The first meaningful class of a list that starts with one is that
      class. */
  lemma MeaningfulHead(c: string, rest: seq<string>)
    requires IsMeaningfulClass(c)
    ensures MeaningfulClasses([c] + rest) == [c] + MeaningfulClasses(rest)
  {
    assert ([c] + rest)[1..] == rest;
  }

  /** The css selector: the tag and the first two meaningful classes. */
  function CssSelector(tag: string, meaningful: seq<string>): string
  {
    tag + "." + Join(if |meaningful| <= 2 then meaningful else meaningful[..2], '.')
  }

  /** `text.replace("'", "\\'")` */
  function EscapeQuotes(text: string): string
  {
    ReplaceChar(text, '\'', "\\'")
  }

  // ---------------------------------------------------------------------
  // The priority chain

  /** Whether rule `k` (1 to 7) of the chain applies to the element. */
  predicate Applies(k: int, tag: string, text: string, attributes: map<string, string>, elementType: string)
  {
    match k
    case 1 => "data-testid" in attributes
    case 2 => "aria-label" in attributes
    case 3 => text != "" && (elementType == "button" || elementType == "link") && |EscapeQuotes(text)| <= 50
    case 4 => "name" in attributes
    case 5 => "placeholder" in attributes && elementType == "input"
    case 6 => text != "" && elementType == "button"
    case 7 => "class" in attributes && MeaningfulClasses(Words(attributes["class"])) != []
    case _ => false
  }

  /** `_generate_selector` */
  function GenerateSelector(tag: string, text: string, attributes: map<string, string>, elementType: string): (r: SelectorChoice)
  {
    if "data-testid" in attributes then
      SelectorChoice(Some("[data-testid='" + attributes["data-testid"] + "']"), "test-id", PRIORITY_TEST_ID)
    else if "aria-label" in attributes then
      SelectorChoice(Some("[aria-label='" + attributes["aria-label"] + "']"), "aria-label", PRIORITY_ARIA_LABEL)
    else if text != "" && (elementType == "button" || elementType == "link") && |EscapeQuotes(text)| <= 50 then
      SelectorChoice(Some(tag + ":has-text('" + EscapeQuotes(text) + "')"), "text", PRIORITY_TEXT)
    else if "name" in attributes then
      SelectorChoice(Some(tag + "[name='" + attributes["name"] + "']"), "name", PRIORITY_NAME)
    else if "placeholder" in attributes && elementType == "input" then
      SelectorChoice(Some(tag + "[placeholder='" + attributes["placeholder"] + "']"), "placeholder", PRIORITY_PLACEHOLDER)
    else if text != "" && elementType == "button" then
      SelectorChoice(Some("[role='button']:has-text('" + Take(EscapeQuotes(text), 30) + "')"), "role", PRIORITY_ROLE)
    else if "class" in attributes && MeaningfulClasses(Words(attributes["class"])) != [] then
      SelectorChoice(Some(CssSelector(tag, MeaningfulClasses(Words(attributes["class"])))), "css", PRIORITY_CSS_CLASS)
    else
      SelectorChoice(None, "", NO_SELECTOR)
  }

  /** The choice is the first rule that applies; with none, there is no
      selector and priority 999. The priority always goes with the type. */
  lemma GenerateSelectorFirstApplicable(tag: string, text: string, attributes: map<string, string>, elementType: string)
    ensures var r := GenerateSelector(tag, text, attributes, elementType);
      && r.priority == PriorityOf(r.selectorType)
      && (r.selector.None? <==> r.priority == NO_SELECTOR)
      && (r.selector.None? <==> forall k :: 1 <= k <= 7 ==> !Applies(k, tag, text, attributes, elementType))
      && (r.selector.Some? ==> 1 <= r.priority <= 7 && Applies(r.priority, tag, text, attributes, elementType))
      && (forall k :: 1 <= k < r.priority && k <= 7 ==> !Applies(k, tag, text, attributes, elementType))
  {
    var r := GenerateSelector(tag, text, attributes, elementType);
    if r.selector.None? {
      forall k | 1 <= k <= 7
        ensures !Applies(k, tag, text, attributes, elementType)
      {
        assert k == 1 || k == 2 || k == 3 || k == 4 || k == 5 || k == 6 || k == 7;
      }
    } else {
      forall k | 1 <= k < r.priority && k <= 7
        ensures !Applies(k, tag, text, attributes, elementType)
      {
        assert k == 1 || k == 2 || k == 3 || k == 4 || k == 5 || k == 6;
      }
      assert Applies(r.priority, tag, text, attributes, elementType);
    }
  }

  /** A css choice uses the first one or two meaningful classes of the
      class attribute, and no utility class or short class. */
  lemma CssChoiceClasses(tag: string, text: string, attributes: map<string, string>, elementType: string)
    requires GenerateSelector(tag, text, attributes, elementType).selectorType == "css"
    ensures "class" in attributes
    ensures var m := MeaningfulClasses(Words(attributes["class"]));
      && m != []
      && GenerateSelector(tag, text, attributes, elementType).selector
         == Some(tag + "." + Join(if |m| <= 2 then m else m[..2], '.'))
      && forall i :: 0 <= i < |m| ==> !IsUtilityClass(m[i]) && |m[i]| > 2
  {
  }

  /** An element with a test id gets the test-id selector on that id,
      whatever aria label, text, name or classes it also has. */
  lemma TestIdWins(tag: string, text: string, attributes: map<string, string>, elementType: string)
    requires "data-testid" in attributes
    ensures var r := GenerateSelector(tag, text, attributes, elementType);
      && r.selector == Some("[data-testid='" + attributes["data-testid"] + "']")
      && r.selectorType == "test-id" && r.priority == PRIORITY_TEST_ID
      && forall k :: 1 <= k <= 7 && Applies(k, tag, text, attributes, elementType) ==> r.priority <= k
  {
  }

  /** Without a test id, an aria label wins over the text and every later
      rule. */
  lemma AriaLabelOverText(tag: string, text: string, attributes: map<string, string>, elementType: string)
    requires "data-testid" !in attributes && "aria-label" in attributes
    ensures var r := GenerateSelector(tag, text, attributes, elementType);
      && r.selector == Some("[aria-label='" + attributes["aria-label"] + "']")
      && r.selectorType == "aria-label" && r.priority == PRIORITY_ARIA_LABEL
      && forall k :: 1 <= k <= 7 && Applies(k, tag, text, attributes, elementType) ==> r.priority <= k
  {
  }

  /** Without a test id or an aria label, short text on a button or a link
      wins over name, placeholder, role and css. */
  lemma TextOverLaterRules(tag: string, text: string, attributes: map<string, string>, elementType: string)
    requires "data-testid" !in attributes && "aria-label" !in attributes
    requires Applies(PRIORITY_TEXT, tag, text, attributes, elementType)
    ensures var r := GenerateSelector(tag, text, attributes, elementType);
      && r.selector == Some(tag + ":has-text('" + EscapeQuotes(text) + "')")
      && r.selectorType == "text" && r.priority == PRIORITY_TEXT
  {
  }

  /** The documented case: a submit button with both a test id and an aria
      label is selected by its test id. */
  lemma TestIdWinsExample()
    ensures GenerateSelector("button", "Submit", map["data-testid" := "submit-btn", "aria-label" := "Submit form"], "button")
            == SelectorChoice(Some("[data-testid='submit-btn']"), "test-id", 1)
  {
    assert "[data-testid='" + "submit-btn" + "']" == "[data-testid='submit-btn']";
  }

  // ---------------------------------------------------------------------
  // Names

  /** The characters a name made from text keeps: `c.isalnum() or c == "_"`. */
  predicate IsNameChar(c: char)
  {
    IsAlnum(c) || c == '_'
  }

  function KeepNameChars(s: string): (r: string)
    ensures |r| <= |s|
    ensures forall k :: 0 <= k < |r| ==> IsNameChar(r[k]) && r[k] in s
  {
    if s == [] then []
    else if IsNameChar(s[0]) then [s[0]] + KeepNameChars(s[1..])
    else KeepNameChars(s[1..])
  }

  /** The name slug of an element's text: lower-cased, stripped, spaces
      and hyphens made `_`, other punctuation dropped, cut to 30. */
  function TextSlug(text: string): string
  {
    Take(KeepNameChars(ReplaceChar(ReplaceChar(Strip(Lower(text)), ' ', "_"), '-', "_")), 30)
  }

  /** An attribute slug: lower-cased, cut to 30, spaces made `_`. */
  function AttributeSlug(value: string): string
  {
    ReplaceChar(Take(Lower(value), 30), ' ', "_")
  }

  /** `_generate_name`: `md5hex` is the md5 hex digest of a string. */
  function GenerateName(text: string, attributes: map<string, string>, selector: string,
                        elementType: string, md5hex: string -> string): string
  {
    if text != "" then elementType + "_" + TextSlug(text)
    else if "aria-label" in attributes then elementType + "_" + AttributeSlug(attributes["aria-label"])
    else if "name" in attributes then elementType + "_" + attributes["name"]
    else if "placeholder" in attributes then "input_" + AttributeSlug(attributes["placeholder"])
    else elementType + "_" + Take(md5hex(selector), 8)
  }

  predicate NoUpper(s: string)
  {
    forall k :: 0 <= k < |s| ==> !IsUpper(s[k])
  }

  lemma {:induction false} ReplaceCharKeepsNoUpper(s: string, c: char, repl: string)
    requires NoUpper(s) && NoUpper(repl)
    ensures NoUpper(ReplaceChar(s, c, repl))
  {
    if s != [] {
      ReplaceCharKeepsNoUpper(s[1..], c, repl);
      var head := if s[0] == c then repl else [s[0]];
      var r := ReplaceChar(s, c, repl);
      assert r == head + ReplaceChar(s[1..], c, repl);
      forall k | 0 <= k < |r|
        ensures !IsUpper(r[k])
      {
        if k >= |head| {
          assert r[k] == ReplaceChar(s[1..], c, repl)[k - |head|];
        }
      }
    }
  }

  lemma StripKeepsNoUpper(s: string)
    requires NoUpper(s)
    ensures NoUpper(Strip(s))
  {
    StripLeftSpec(s);
    var l := StripLeft(s);
    assert forall k :: 0 <= k < |l| ==> l[k] == s[|s| - |l| + k];
    StripRightSpec(l);
  }

  /** A name made from text is the element type, `_`, and at most 30
      lower-case letters, digits and underscores. */
  lemma TextNameShape(text: string, attributes: map<string, string>, selector: string,
                      elementType: string, md5hex: string -> string)
    requires text != ""
    ensures var name := GenerateName(text, attributes, selector, elementType, md5hex);
      var slug := TextSlug(text);
      && name == elementType + "_" + slug
      && |slug| <= 30
      && forall k :: 0 <= k < |slug| ==> IsLower(slug[k]) || IsDigit(slug[k]) || slug[k] == '_'
  {
    var lowered := Lower(text);
    assert NoUpper(lowered);
    StripKeepsNoUpper(lowered);
    ReplaceCharKeepsNoUpper(Strip(lowered), ' ', "_");
    ReplaceCharKeepsNoUpper(ReplaceChar(Strip(lowered), ' ', "_"), '-', "_");
  }

  /** Without text the name comes from the aria label, then the name
      attribute, then the placeholder (always under `input_`), then eight
      characters of the selector's hash. */
  lemma NameFallbacks(attributes: map<string, string>, selector: string, elementType: string, md5hex: string -> string)
    ensures var name := GenerateName("", attributes, selector, elementType, md5hex);
      && ("aria-label" in attributes ==> name == elementType + "_" + AttributeSlug(attributes["aria-label"]))
      && ("aria-label" !in attributes && "name" in attributes ==> name == elementType + "_" + attributes["name"])
      && ("aria-label" !in attributes && "name" !in attributes && "placeholder" in attributes ==>
            StartsWith(name, "input_"))
      && ("aria-label" !in attributes && "name" !in attributes && "placeholder" !in attributes ==>
            name == elementType + "_" + Take(md5hex(selector), 8)
            && |name| <= |elementType| + 9)
  {
  }

  predicate AllAlpha(s: string)
  {
    forall k :: 0 <= k < |s| ==> IsAlpha(s[k])
  }

  /** Two words of letters make the name `<type>_<word>_<word>` in lower
      case ("Submit Form" on a button is `button_submit_form`). */
  lemma TwoWordName(first: string, second: string, selector: string, elementType: string, md5hex: string -> string)
    requires first != [] && second != [] && AllAlpha(first) && AllAlpha(second)
    requires |first| + |second| < 30
    ensures GenerateName(first + " " + second, map[], selector, elementType, md5hex)
            == elementType + "_" + Lower(first) + "_" + Lower(second)
  {
    var a, b := Lower(first), Lower(second);
    LowerWords(first, second);
    StripUnspaced(a + " " + b);
    SlugOfWords(a, b);
  }

  lemma LowerWords(first: string, second: string)
    requires AllAlpha(first) && AllAlpha(second)
    ensures Lower(first + " " + second) == Lower(first) + " " + Lower(second)
    ensures AllAlpha(Lower(first)) && AllAlpha(Lower(second))
  {
    LowerConcat(first + " ", second);
    LowerConcat(first, " ");
  }

  /** A string that neither starts nor ends with whitespace strips to
      itself. */
  lemma StripUnspaced(s: string)
    requires s != [] && !IsSpace(s[0]) && !IsSpace(s[|s| - 1])
    ensures Strip(s) == s
  {
    assert StripLeft(s) == s;
  }

  /** Two lower-case words joined by a space are their own slug body. */
  lemma SlugOfWords(a: string, b: string)
    requires AllAlpha(a) && AllAlpha(b)
    ensures KeepNameChars(ReplaceChar(ReplaceChar(a + " " + b, ' ', "_"), '-', "_")) == a + "_" + b
  {
    SpaceBetweenWords(a, b);
    var joined := a + "_" + b;
    assert forall k :: 0 <= k < |joined| ==> IsNameChar(joined[k]);
    assert '-' !in joined;
    ReplaceCharAbsent(joined, '-', "_");
    KeepNameCharsAll(joined);
  }

  lemma SpaceBetweenWords(a: string, b: string)
    requires AllAlpha(a) && AllAlpha(b)
    ensures ReplaceChar(a + " " + b, ' ', "_") == a + "_" + b
  {
    ReplaceCharAppend(a + " ", b, ' ', "_");
    ReplaceCharAppend(a, " ", ' ', "_");
    ReplaceCharAbsent(a, ' ', "_");
    ReplaceCharAbsent(b, ' ', "_");
    assert ReplaceChar(" ", ' ', "_") == "_";
  }

  lemma {:induction false} ReplaceCharAppend(a: string, b: string, c: char, repl: string)
    ensures ReplaceChar(a + b, c, repl) == ReplaceChar(a, c, repl) + ReplaceChar(b, c, repl)
  {
    if a != [] {
      assert (a + b)[1..] == a[1..] + b;
      ReplaceCharAppend(a[1..], b, c, repl);
    } else {
      assert a + b == b;
    }
  }

  lemma {:induction false} ReplaceCharAbsent(s: string, c: char, repl: string)
    requires c !in s
    ensures ReplaceChar(s, c, repl) == s
  {
    if s != [] {
      ReplaceCharAbsent(s[1..], c, repl);
      assert s == [s[0]] + s[1..];
    }
  }

  lemma {:induction false} KeepNameCharsAll(s: string)
    requires forall k :: 0 <= k < |s| ==> IsNameChar(s[k])
    ensures KeepNameChars(s) == s
  {
    if s != [] {
      KeepNameCharsAll(s[1..]);
      assert s == [s[0]] + s[1..];
    }
  }
}
